/** The settings screen (components/SettingsTab.tsx): saving the store's
    details and changing the PIN. */
module SettingsTab {
  import opened Wrappers
  import opened Text
  import opened Store

  /** The store-details form. */
  datatype SettingsForm = SettingsForm(storeNameEn: string, storeNameKn: string, phone: string, printLang: PrintLang)

  /** The three PIN inputs. */
  datatype PinForm = PinForm(currentPin: string, newPin: string, confirmPin: string)

  const EmptyPinForm := PinForm("", "", "")

  const StoreNameRequired := "Store name is required"
  const WrongCurrentPin := "Current PIN is incorrect"
  const BadNewPin := "New PIN must be 4–6 digits"
  const PinMismatch := "PINs do not match"

  /** `/^\d{4,6}$/`: four to six ASCII digits and nothing else. */
  predicate IsValidPin(s: string)
  {
    4 <= |s| <= 6 && AllDigits(s)
  }

  /** The first check `handleChangePin` fails, in the order it makes them:
      the current PIN, then the new PIN's shape, then the confirmation. */
  function PinChangeError(f: PinForm, pin: string): (r: Option<string>)
    ensures r == None <==> f.currentPin == pin && IsValidPin(f.newPin) && f.newPin == f.confirmPin
    ensures f.currentPin != pin ==> r == Some(WrongCurrentPin)
    ensures f.currentPin == pin && !IsValidPin(f.newPin) ==> r == Some(BadNewPin)
    ensures f.currentPin == pin && IsValidPin(f.newPin) && f.newPin != f.confirmPin ==> r == Some(PinMismatch)
  {
    if f.currentPin != pin then Some(WrongCurrentPin)
    else if !IsValidPin(f.newPin) then Some(BadNewPin)
    else if f.newPin != f.confirmPin then Some(PinMismatch)
    else None
  }

  /** The patch `handleSaveSettings` sends: trimmed names and phone and the
      chosen language; the PIN is not part of it. */
  function SettingsPatchOf(f: SettingsForm): SettingsPatch
  {
    SettingsPatch(Some(Trim(f.storeNameEn)), Some(Trim(f.storeNameKn)), Some(Trim(f.phone)), None, Some(f.printLang))
  }

  /** Saving the store details keeps the PIN, stores trimmed text and the
      chosen language. */
  lemma SaveSettingsKeepsPin(s: Settings, f: SettingsForm)
    ensures MergeSettings(s, SettingsPatchOf(f)).pin == s.pin
    ensures MergeSettings(s, SettingsPatchOf(f)).storeNameEn == Trim(f.storeNameEn)
    ensures MergeSettings(s, SettingsPatchOf(f)).printLang == f.printLang
    ensures !IsBlank(f.storeNameEn) ==> MergeSettings(s, SettingsPatchOf(f)).storeNameEn != ""
  {
  }

  /** A successful change leaves a four-to-six digit PIN in place of the old
      one and touches no other setting. */
  lemma ChangedPinIsValid(s: Settings, f: PinForm)
    requires PinChangeError(f, s.pin) == None
    ensures var t := MergeSettings(s, SettingsPatch(None, None, None, Some(f.newPin), None));
      IsValidPin(t.pin) && t == s.(pin := f.newPin)
  {
  }

  /** What a PIN input holds after typing `typed` (at most six characters,
      the input's `maxLength`): its digits only. */
  function PinInput(typed: string): (r: string)
    requires |typed| <= 6
    ensures AllDigits(r) && |r| <= 6
  {
    StripNonDigits(typed)
  }

  class SettingsScreen {
    var form: SettingsForm
    var pinForm: PinForm
    var pinError: string

    /** The form starts from the current settings; the PIN inputs empty. */
    constructor (s: Settings)
      ensures form == SettingsForm(s.storeNameEn, s.storeNameKn, s.phone, s.printLang)
      ensures pinForm == EmptyPinForm && pinError == ""
    {
      form := SettingsForm(s.storeNameEn, s.storeNameKn, s.phone, s.printLang);
      pinForm, pinError := EmptyPinForm, "";
    }

    method SetCurrentPin(typed: string)
      requires |typed| <= 6
      modifies this
      ensures pinForm == old(pinForm).(currentPin := PinInput(typed))
      ensures form == old(form) && pinError == old(pinError)
    {
      pinForm := pinForm.(currentPin := PinInput(typed));
    }

    method SetNewPin(typed: string)
      requires |typed| <= 6
      modifies this
      ensures pinForm == old(pinForm).(newPin := PinInput(typed))
      ensures form == old(form) && pinError == old(pinError)
    {
      pinForm := pinForm.(newPin := PinInput(typed));
    }

    method SetConfirmPin(typed: string)
      requires |typed| <= 6
      modifies this
      ensures pinForm == old(pinForm).(confirmPin := PinInput(typed))
      ensures form == old(form) && pinError == old(pinError)
    {
      pinForm := pinForm.(confirmPin := PinInput(typed));
    }

    /** `handleSaveSettings`: a blank English name is refused; otherwise the
        trimmed details and the language are saved and the PIN kept. */
    method HandleSaveSettings(store: EntityStore, ghost writeOk: bool) returns (outcome: Outcome)
      modifies store
      ensures IsBlank(form.storeNameEn) ==>
        outcome == Fail(StoreNameRequired) && store.settings == old(store.settings) && store.storage == old(store.storage)
      ensures !IsBlank(form.storeNameEn) ==>
        && outcome == Pass
        && store.settings == old(store.settings).(storeNameEn := Trim(form.storeNameEn), storeNameKn := Trim(form.storeNameKn),
                                                 phone := Trim(form.phone), printLang := form.printLang)
        && store.storage == SaveToStorage(old(store.storage), SettingsKey, SettingsBlob(store.settings), writeOk)
      ensures store.items == old(store.items) && store.sales == old(store.sales)
      ensures store.udhaar == old(store.udhaar) && store.expenses == old(store.expenses)
    {
      if Trim(form.storeNameEn) == "" {
        return Fail(StoreNameRequired);
      }
      store.UpdateSettings(SettingsPatchOf(form), writeOk);
      outcome := Pass;
    }

    /** `handleChangePin`: shows the first failed check, or saves the new PIN
        alone and clears the three inputs. */
    method HandleChangePin(store: EntityStore, ghost writeOk: bool)
      modifies this, store
      ensures var err := PinChangeError(old(pinForm), old(store.settings.pin));
        && (err.Some? ==>
              && pinError == err.value && pinForm == old(pinForm)
              && store.settings == old(store.settings) && store.storage == old(store.storage))
        && (err.None? ==>
              && pinError == "" && pinForm == EmptyPinForm
              && store.settings == old(store.settings).(pin := old(pinForm).newPin)
              && store.storage == SaveToStorage(old(store.storage), SettingsKey, SettingsBlob(store.settings), writeOk))
      ensures form == old(form)
      ensures store.items == old(store.items) && store.sales == old(store.sales)
      ensures store.udhaar == old(store.udhaar) && store.expenses == old(store.expenses)
    {
      pinError := "";
      if pinForm.currentPin != store.settings.pin {
        pinError := WrongCurrentPin;
        return;
      }
      if !IsValidPin(pinForm.newPin) {
        pinError := BadNewPin;
        return;
      }
      if pinForm.newPin != pinForm.confirmPin {
        pinError := PinMismatch;
        return;
      }
      store.UpdateSettings(SettingsPatch(None, None, None, Some(pinForm.newPin), None), writeOk);
      pinForm := EmptyPinForm;
    }
  }
}
