/**
 * The floating booking widget (frontend/src/components/AppointmentBooking.js):
 * opened from its own button, it runs the three-step wizard and closes and
 * resets on submit or on the close button.
 */
module AppointmentBooking {
  import opened Booking

  class BookingWidget {
    var isOpen: bool
    var currentStep: nat
    var selectedDate: string
    var selectedTime: string
    var formData: Form

    /** The wizard part of the state. */
    function State(): Wizard
      reads this
    {
      Wizard(currentStep, selectedDate, selectedTime, formData)
    }

    constructor()
      ensures !isOpen && State() == Initial
    {
      isOpen := false;
      currentStep := 1;
      selectedDate := "";
      selectedTime := "";
      formData := Form("", "", "");
    }

    /** The floating button. */
    method Open()
      modifies this
      ensures isOpen && State() == old(State())
    {
      isOpen := true;
    }

    method HandleDateSelect(date: string)
      modifies this
      ensures State() == SelectDate(old(State()), date) && isOpen == old(isOpen)
    {
      selectedDate := date;
      currentStep := 2;
    }

    method HandleTimeSelect(time: string)
      modifies this
      ensures State() == SelectTime(old(State()), time) && isOpen == old(isOpen)
    {
      selectedTime := time;
      currentStep := 3;
    }

    method HandleInputChange(field: Field, value: string)
      modifies this
      ensures State() == InputChange(old(State()), field, value) && isOpen == old(isOpen)
    {
      match field {
        case Name => formData := formData.(name := value);
        case Email => formData := formData.(email := value);
        case Reason => formData := formData.(reason := value);
      }
    }

    /** "Back" on the time step. */
    method BackToDateStep()
      modifies this
      ensures State() == BackToDate(old(State())) && isOpen == old(isOpen)
    {
      currentStep := 1;
    }

    /** "Back" on the details step. */
    method BackToTimeStep()
      modifies this
      ensures State() == BackToTime(old(State())) && isOpen == old(isOpen)
    {
      currentStep := 2;
    }

    method ResetForm()
      modifies this
      ensures State() == Reset(old(State())) && isOpen == old(isOpen)
    {
      currentStep := 1;
      selectedDate := "";
      selectedTime := "";
      formData := Form("", "", "");
    }

    /** `handleClose`: the widget closes and the wizard starts over. */
    method HandleClose()
      modifies this
      ensures !isOpen && State() == Initial
    {
      isOpen := false;
      ResetForm();
    }

    /**
     * `handleSubmit`: hands over the form with the chosen date and time and
     * the current time (`now`), then closes and resets like `handleClose`.
     */
    method HandleSubmit(now: string) returns (booked: Booked)
      modifies this
      ensures booked == Booked(old(formData), old(selectedDate), old(selectedTime), now)
      ensures !isOpen && State() == Initial
    {
      booked := Booked(formData, selectedDate, selectedTime, now);
      isOpen := false;
      ResetForm();
    }
  }
}
