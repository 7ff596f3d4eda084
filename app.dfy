/** The application shell (App.tsx): the PIN keypad that guards the app, the
    lock button and the tab bar. */
module App {
  import opened Text
  import Store
  import SettingsTab

  /** The five tabs. */
  datatype Tab = BillingPage | ItemsPage | ReportsPage | UdhaarPage | SettingsPage

  /** What the app shows: the keypad until it is unlocked, then a tab. */
  datatype Screen = PinScreen | TabScreen(tab: Tab)

  /** The most digits the keypad accepts. */
  const MaxEntry := 6

  /** The keypad's state: the digits entered, the error and shake flags, and
      how many 500 ms clear-timers are still to fire. */
  datatype PinPad = PinPad(entered: string, error: bool, shake: bool, pendingResets: nat)

  /** The keypad as it is mounted. */
  const FreshPad := PinPad("", false, false, 0)

  /** `handleKey(d)` against the stored `pin`: the new keypad, and whether
      it unlocked the app. A full entry (six digits) ignores the key; an
      entry as long as the PIN is submitted at once, and a wrong one sets the
      error and starts a clear-timer. */
  function PressKey(p: PinPad, d: char, pin: string): (r: (PinPad, bool))
    ensures r.1 <==> |p.entered| < MaxEntry && p.entered + [d] == pin
    ensures |p.entered| >= MaxEntry ==> r.0 == p
    ensures |p.entered| < MaxEntry ==> r.0.entered == p.entered + [d]
    ensures |p.entered| < MaxEntry ==> (r.0.error <==> |pin| == |p.entered| + 1 && !r.1)
    ensures |p.entered| < MaxEntry ==> r.0.shake == (r.0.error || p.shake)
    ensures r.0.pendingResets == p.pendingResets + (if r.0.error && |p.entered| < MaxEntry then 1 else 0)
  {
    if |p.entered| >= MaxEntry then (p, false)
    else
      var next := p.entered + [d];
      if |next| == |pin| then
        if next == pin then (p.(entered := next, error := false), true)
        else (PinPad(next, true, true, p.pendingResets + 1), false)
      else (p.(entered := next, error := false), false)
  }

  /** A clear-timer firing: the entry empties and the shake stops; the error
      message stays until the next key. */
  function ResetFires(p: PinPad): (r: PinPad)
    requires p.pendingResets > 0
    ensures r.entered == "" && !r.shake && r.error == p.error && r.pendingResets == p.pendingResets - 1
  {
    PinPad("", p.error, false, p.pendingResets - 1)
  }

  /** `handleDelete`: drops the last digit, if any, and clears the error. */
  function DeleteKey(p: PinPad): (r: PinPad)
    ensures p.entered == [] ==> r.entered == []
    ensures p.entered != [] ==> r.entered + [p.entered[|p.entered| - 1]] == p.entered
    ensures !r.error && r.shake == p.shake && r.pendingResets == p.pendingResets
  {
    p.(entered := if p.entered == [] then [] else p.entered[..|p.entered| - 1], error := false)
  }

  /** Pressing `keys` in turn until one unlocks: the keypad reached and
      whether the app was unlocked. */
  function PressAll(p: PinPad, keys: string, pin: string): (PinPad, bool)
    decreases |keys|
  {
    if keys == [] then (p, false)
    else
      var (q, ok) := PressKey(p, keys[0], pin);
      if ok then (q, true) else PressAll(q, keys[1..], pin)
  }

  /** Typing the rest of the PIN on a keypad that holds its first digits
      unlocks the app. */
  lemma {:induction false} TypingRestUnlocks(p: PinPad, pin: string, k: nat)
    requires k < |pin| <= MaxEntry && p.entered == pin[..k]
    ensures PressAll(p, pin[k..], pin).1
    decreases |pin| - k
  {
    var keys := pin[k..];
    assert keys[0] == pin[k];
    assert p.entered + [pin[k]] == pin[..k + 1];
    var (q, ok) := PressKey(p, keys[0], pin);
    if !ok {
      assert k + 1 < |pin|;
      assert keys[1..] == pin[k + 1..];
      TypingRestUnlocks(q, pin, k + 1);
    }
  }

  /** A PIN of one to six characters opens a freshly mounted keypad. */
  lemma TypingPinUnlocks(pin: string)
    requires 1 <= |pin| <= MaxEntry
    ensures PressAll(FreshPad, pin, pin).1
  {
    TypingRestUnlocks(FreshPad, pin, 0);
  }

  /** The only way in: if digit keys unlock a keypad holding only digits, the
      stored PIN is one to six digits, so a PIN of any other shape locks the
      app for good. */
  lemma {:induction false} UnlockNeedsShortDigitPin(p: PinPad, keys: string, pin: string)
    requires AllDigits(p.entered) && |p.entered| <= MaxEntry && AllDigits(keys)
    requires PressAll(p, keys, pin).1
    ensures AllDigits(pin) && 1 <= |pin| <= MaxEntry
    decreases |keys|
  {
    var (q, ok) := PressKey(p, keys[0], pin);
    if !ok {
      assert AllDigits(q.entered) by {
        if |p.entered| < MaxEntry {
          assert forall i :: 0 <= i < |q.entered| ==> q.entered[i] == (p.entered + [keys[0]])[i];
        }
      }
      UnlockNeedsShortDigitPin(q, keys[1..], pin);
    }
  }

  /** A PIN saved through the settings screen always opens the keypad. */
  lemma ChangedPinUnlocks(s: Store.Settings, f: SettingsTab.PinForm)
    requires SettingsTab.PinChangeError(f, s.pin).None?
    ensures PressAll(FreshPad, f.newPin, f.newPin).1
  {
    TypingPinUnlocks(f.newPin);
  }

  /** The default PIN, 1234, opens the keypad. */
  lemma DefaultPinUnlocks()
    ensures PressAll(FreshPad, Store.DefaultSettings.pin, Store.DefaultSettings.pin).1
  {
    TypingPinUnlocks(Store.DefaultSettings.pin);
  }

  /** The app: the store, whether it is unlocked, the open tab and the
      keypad. */
  class AppScreen {
    const store: Store.EntityStore
    var loggedIn: bool
    var activeTab: Tab
    var pad: PinPad

    predicate Valid()
      reads this
    {
      |pad.entered| <= MaxEntry
    }

    /** Only the keypad is shown while the app is locked. */
    function Shown(): (r: Screen)
      reads this
      ensures r == PinScreen <==> !loggedIn
      ensures loggedIn ==> r == TabScreen(activeTab)
    {
      if loggedIn then TabScreen(activeTab) else PinScreen
    }

    constructor (store: Store.EntityStore)
      ensures this.store == store
      ensures !loggedIn && activeTab == BillingPage && pad == FreshPad
      ensures Valid()
    {
      this.store := store;
      loggedIn, activeTab, pad := false, BillingPage, FreshPad;
    }

    /** A digit on the keypad, checked against the stored PIN. */
    method HandleKey(d: char)
      requires Valid() && !loggedIn && IsDigit(d)
      modifies this
      ensures Valid()
      ensures pad == PressKey(old(pad), d, store.settings.pin).0
      ensures loggedIn == PressKey(old(pad), d, store.settings.pin).1
      ensures loggedIn ==> old(pad).entered + [d] == store.settings.pin
      ensures activeTab == old(activeTab)
    {
      var (q, ok) := PressKey(pad, d, store.settings.pin);
      pad, loggedIn := q, ok;
    }

    method HandleDelete()
      requires Valid() && !loggedIn
      modifies this
      ensures Valid()
      ensures pad == DeleteKey(old(pad)) && !loggedIn && activeTab == old(activeTab)
    {
      pad := DeleteKey(pad);
    }

    /** One of the keypad's clear-timers fires. */
    method ResetTimer()
      requires Valid() && !loggedIn && pad.pendingResets > 0
      modifies this
      ensures Valid()
      ensures pad == ResetFires(old(pad)) && !loggedIn && activeTab == old(activeTab)
    {
      pad := ResetFires(pad);
    }

    /** The lock button: back to a freshly mounted keypad. */
    method Lock()
      requires loggedIn
      modifies this
      ensures Valid()
      ensures !loggedIn && pad == FreshPad && activeTab == old(activeTab)
    {
      loggedIn, pad := false, FreshPad;
    }

    method SelectTab(t: Tab)
      requires loggedIn
      modifies this
      ensures activeTab == t && loggedIn && pad == old(pad)
    {
      activeTab := t;
    }
  }
}
