/**
 * The bookmark bar's controller (frontend/src/components/AppointmentManager.js):
 * one flag for the booking modal, one for the skills pop-up, and the same
 * three-step booking wizard, which submit and close both reset.
 */
module AppointmentManager {
  import opened Booking

  class Manager {
    var isModalOpen: bool
    var isSkillsPopupOpen: bool
    var currentStep: nat
    var selectedDate: string
    var selectedTime: string
    var formData: Form

    function State(): Wizard
      reads this
    {
      Wizard(currentStep, selectedDate, selectedTime, formData)
    }

    constructor()
      ensures !isModalOpen && !isSkillsPopupOpen && State() == Initial
    {
      isModalOpen := false;
      isSkillsPopupOpen := false;
      currentStep := 1;
      selectedDate := "";
      selectedTime := "";
      formData := Form("", "", "");
    }

    /** The bookmark's appointment entry opens the modal and nothing else. */
    method HandleAppointmentClick()
      modifies this
      ensures isModalOpen && isSkillsPopupOpen == old(isSkillsPopupOpen) && State() == old(State())
    {
      isModalOpen := true;
    }

    /** The bookmark's skills entry opens the pop-up and nothing else. */
    method HandleSkillsClick()
      modifies this
      ensures isSkillsPopupOpen && isModalOpen == old(isModalOpen) && State() == old(State())
    {
      isSkillsPopupOpen := true;
    }

    /** The pop-up's `onClose` clears its own flag only. */
    method CloseSkillsPopup()
      modifies this
      ensures !isSkillsPopupOpen && isModalOpen == old(isModalOpen) && State() == old(State())
    {
      isSkillsPopupOpen := false;
    }

    method HandleDateSelect(date: string)
      modifies this
      ensures State() == SelectDate(old(State()), date)
      ensures isModalOpen == old(isModalOpen) && isSkillsPopupOpen == old(isSkillsPopupOpen)
    {
      selectedDate := date;
      currentStep := 2;
    }

    method HandleTimeSelect(time: string)
      modifies this
      ensures State() == SelectTime(old(State()), time)
      ensures isModalOpen == old(isModalOpen) && isSkillsPopupOpen == old(isSkillsPopupOpen)
    {
      selectedTime := time;
      currentStep := 3;
    }

    method HandleInputChange(field: Field, value: string)
      modifies this
      ensures State() == InputChange(old(State()), field, value)
      ensures isModalOpen == old(isModalOpen) && isSkillsPopupOpen == old(isSkillsPopupOpen)
    {
      match field {
        case Name => formData := formData.(name := value);
        case Email => formData := formData.(email := value);
        case Reason => formData := formData.(reason := value);
      }
    }

    method BackToDateStep()
      modifies this
      ensures State() == BackToDate(old(State()))
      ensures isModalOpen == old(isModalOpen) && isSkillsPopupOpen == old(isSkillsPopupOpen)
    {
      currentStep := 1;
    }

    method BackToTimeStep()
      modifies this
      ensures State() == BackToTime(old(State()))
      ensures isModalOpen == old(isModalOpen) && isSkillsPopupOpen == old(isSkillsPopupOpen)
    {
      currentStep := 2;
    }

    method ResetForm()
      modifies this
      ensures State() == Reset(old(State()))
      ensures isModalOpen == old(isModalOpen) && isSkillsPopupOpen == old(isSkillsPopupOpen)
    {
      currentStep := 1;
      selectedDate := "";
      selectedTime := "";
      formData := Form("", "", "");
    }

    /** `handleClose`: the modal closes and the wizard starts over; the pop-up is untouched. */
    method HandleClose()
      modifies this
      ensures !isModalOpen && State() == Initial && isSkillsPopupOpen == old(isSkillsPopupOpen)
    {
      isModalOpen := false;
      ResetForm();
    }

    /** `handleSubmit`: hands over the booking, then delegates to `handleClose`. */
    method HandleSubmit(now: string) returns (booked: Booked)
      modifies this
      ensures booked == Booked(old(formData), old(selectedDate), old(selectedTime), now)
      ensures !isModalOpen && State() == Initial && isSkillsPopupOpen == old(isSkillsPopupOpen)
    {
      booked := Booked(formData, selectedDate, selectedTime, now);
      HandleClose();
    }
  }
}
