/**
 * The PIN screen (Views/Settings/PINSettingsView.swift): when its button is
 * enabled, and what pressing it does to the settings view model.
 */
module PinSettings {
  import opened SettingsStore

  /** `CharacterSet.decimalDigits`, on the ASCII digits. */
  predicate IsDecimalDigit(c: char) {
    '0' <= c <= '9'
  }

  /** The test of the second guard: four characters, all of them digits. */
  predicate IsFourDigitPin(pin: string) {
    |pin| == 4 && forall i :: 0 <= i < |pin| ==> IsDecimalDigit(pin[i])
  }

  /**
   * `canUpdatePIN`: four characters confirmed by the same text, and, when a
   * PIN is already set, a current PIN typed in.
   */
  function CanUpdatePin(hasPIN: bool, currentPin: string, newPin: string, confirmPin: string): (b: bool)
    ensures b ==> |newPin| == 4 && newPin == confirmPin
    ensures b && hasPIN ==> currentPin != []
    ensures |newPin| == 4 && newPin == confirmPin && (hasPIN ==> currentPin != []) ==> b
  {
    if hasPIN then currentPin != [] && |newPin| == 4 && newPin == confirmPin
    else |newPin| == 4 && newPin == confirmPin
  }

  /**
   * The button checks the length only: it is enabled for a confirmed PIN
   * that the digit guard then refuses.
   */
  lemma EnabledButtonCanStillBeRefused()
    ensures CanUpdatePin(false, "", "12a4", "12a4")
    ensures !IsFourDigitPin("12a4")
  {
    assert !IsDecimalDigit("12a4"[2]);
  }

  const IncorrectPinMessage: string := "PIN actuel incorrect"
  const FourDigitsMessage: string := "Le PIN doit contenir 4 chiffres"

  /** The form's state: the three texts typed, the error alert, and the view model. */
  class PinForm {
    var currentPin: string
    var newPin: string
    var confirmPin: string
    var showingError: bool
    var errorMessage: string
    const viewModel: SettingsViewModel

    /** A fresh screen: nothing typed, no error. */
    constructor(viewModel: SettingsViewModel)
      ensures this.viewModel == viewModel
      ensures currentPin == [] && newPin == [] && confirmPin == []
      ensures !showingError && errorMessage == ""
    {
      this.viewModel := viewModel;
      currentPin := [];
      newPin := [];
      confirmPin := [];
      showingError := false;
      errorMessage := "";
    }

    /**
     * The save button is enabled exactly for a four-character PIN equal to its
     * confirmation, with a current PIN typed in when one is set.
     */
    predicate CanUpdate(): (b: bool)
      reads this, viewModel
      ensures b <==> |newPin| == 4 && newPin == confirmPin && (viewModel.hasPIN ==> currentPin != [])
    {
      CanUpdatePin(viewModel.hasPIN, currentPin, newPin, confirmPin)
    }

    /**
     * `updatePIN()`.  `validatePin` stands for the view model's
     * `validatePIN`.  A set PIN must be confirmed first; the new PIN must be
     * four digits; only then is the PIN recorded.
     */
    method UpdatePin(validatePin: string -> bool)
      modifies this, viewModel
      ensures currentPin == old(currentPin) && newPin == old(newPin) && confirmPin == old(confirmPin)
      ensures viewModel.categories == old(viewModel.categories)
      ensures old(viewModel.hasPIN) && !validatePin(currentPin) ==>
        showingError && errorMessage == IncorrectPinMessage && viewModel.hasPIN == old(viewModel.hasPIN)
      ensures (old(viewModel.hasPIN) ==> validatePin(currentPin)) && !IsFourDigitPin(newPin) ==>
        showingError && errorMessage == FourDigitsMessage && viewModel.hasPIN == old(viewModel.hasPIN)
      ensures (old(viewModel.hasPIN) ==> validatePin(currentPin)) && IsFourDigitPin(newPin) ==>
        viewModel.hasPIN && showingError == old(showingError) && errorMessage == old(errorMessage)
    {
      if viewModel.hasPIN {
        if !validatePin(currentPin) {
          errorMessage := IncorrectPinMessage;
          showingError := true;
          return;
        }
      }
      if !(|newPin| == 4 && forall i :: 0 <= i < |newPin| ==> IsDecimalDigit(newPin[i])) {
        errorMessage := FourDigitsMessage;
        showingError := true;
        return;
      }
      viewModel.UpdatePin(newPin);
    }
  }
}
