/** The six-digit one-time-code entry (src/pages/auth/VerifyOTP.jsx). The six inputs are one
    array of slots; DOM focus is the index of the focused input; the interval and the timeouts are
    explicit step methods. */
module VerifyOtp {
  import opened Wrappers
  import opened Text

  const SLOTS: nat := 6
  const VALID_CODE: string := "123456"
  const RESEND_SECONDS: int := 30

  /** `verificationStatus`: null, 'success' or 'error'. */
  datatype Verification = Unverified | Success | Failure

  /** A slot holds nothing or one digit: each input has `maxLength={1}`, and the handlers write
      only digits. */
  predicate SlotValue(v: string) {
    |v| <= 1 && (v == "" || AllDigits(v))
  }

  /** `otp.join('')`. */
  function Join(slots: seq<string>): string {
    if slots == [] then "" else Join(slots[..|slots| - 1]) + slots[|slots| - 1]
  }

  /** Joining inputs that hold at most one character each gives a six-character code exactly when
      every one of six inputs is filled. */
  lemma {:induction false} JoinLength(slots: seq<string>)
    requires forall i :: 0 <= i < |slots| ==> |slots[i]| <= 1
    ensures |Join(slots)| <= |slots|
    ensures |Join(slots)| == |slots| <==> forall i :: 0 <= i < |slots| ==> |slots[i]| == 1
  {
    if slots != [] {
      var front, last := slots[..|slots| - 1], slots[|slots| - 1];
      JoinLength(front);
      assert |Join(slots)| == |Join(front)| + |last|;
      if |Join(slots)| == |slots| {
        assert |Join(front)| == |front| && |last| == 1;
        forall i | 0 <= i < |slots|
          ensures |slots[i]| == 1
        {
          if i < |front| {
            assert slots[i] == front[i];
          }
        }
      }
      if forall i :: 0 <= i < |slots| ==> |slots[i]| == 1 {
        assert forall i :: 0 <= i < |front| ==> front[i] == slots[i];
        assert |last| == 1;
      }
    }
  }

  /** Single-character inputs join to `123456` exactly when they read 1, 2, 3, 4, 5, 6. */
  lemma JoinValidCode(slots: seq<string>)
    requires |slots| == SLOTS && forall i :: 0 <= i < |slots| ==> |slots[i]| == 1
    ensures Join(slots) == VALID_CODE <==> slots == ["1", "2", "3", "4", "5", "6"]
  {
    var j := Join(slots);
    JoinSix(slots);
    assert forall k :: 0 <= k < 6 ==> slots[k] == [j[k]];
    if j == VALID_CODE {
      assert slots == [[j[0]], [j[1]], [j[2]], [j[3]], [j[4]], [j[5]]];
    }
  }

  lemma JoinSix(slots: seq<string>)
    requires |slots| == SLOTS
    ensures Join(slots) == slots[0] + slots[1] + slots[2] + slots[3] + slots[4] + slots[5]
  {
    assert slots[..5][..4] == slots[..4];
    assert slots[..4][..3] == slots[..3];
    assert slots[..3][..2] == slots[..2];
    assert slots[..2][..1] == slots[..1];
    assert slots[..1][..0] == [];
    assert Join(slots[..1]) == slots[0];
    assert Join(slots[..2]) == slots[0] + slots[1];
    assert Join(slots[..3]) == slots[0] + slots[1] + slots[2];
    assert Join(slots[..4]) == slots[0] + slots[1] + slots[2] + slots[3];
    assert Join(slots[..5]) == slots[0] + slots[1] + slots[2] + slots[3] + slots[4];
  }

  /** `findIndex(v => v === '')`: the first empty slot, or -1. */
  function FirstEmpty(slots: seq<string>): (r: int)
    ensures -1 <= r < |slots|
    ensures r == -1 <==> forall i :: 0 <= i < |slots| ==> slots[i] != ""
    ensures r >= 0 ==> slots[r] == "" && forall i :: 0 <= i < r ==> slots[i] != ""
  {
    if slots == [] then -1
    else if slots[0] == "" then 0
    else
      var r := FirstEmpty(slots[1..]);
      if r == -1 then -1 else r + 1
  }

  /** The slots after a paste: the first `|digits|` slots (at most six) take one digit each. */
  function Overlay(slots: seq<string>, digits: string): (r: seq<string>)
    ensures |r| == |slots|
  {
    seq(|slots|, i requires 0 <= i < |slots| => if i < |digits| then [digits[i]] else slots[i])
  }

  /** Pasting `123456` over six slots fills them with its digits in order. */
  lemma OverlayValidCode(slots: seq<string>)
    requires |slots| == SLOTS
    ensures Overlay(slots, VALID_CODE) == ["1", "2", "3", "4", "5", "6"]
  {
  }

  /** The outcome of the delayed check. */
  function Outcome(code: string): (r: Verification)
    ensures r == Success <==> code == VALID_CODE
    ensures r != Unverified
  {
    if code == VALID_CODE then Success else Failure
  }

  /** The countdown's state: seconds left and whether a new code may be requested. */
  datatype Countdown = Countdown(timer: int, canResend: bool)

  /** One interval tick followed by the effect it re-runs: the timer drops by one, and reaching 0
      allows a resend. A timer already at 0 has no interval running. */
  function Tick(c: Countdown): (r: Countdown)
    ensures c.timer >= 0 ==> 0 <= r.timer <= c.timer
    ensures c.timer > 0 ==> r.timer == c.timer - 1
    ensures c.canResend ==> r.canResend
    ensures c.timer > 0 && r.timer == 0 ==> r.canResend
  {
    if c.timer > 0 then
      var t := c.timer - 1;
      Countdown(t, if t > 0 then c.canResend else true)
    else c
  }

  function AfterTicks(c: Countdown, n: nat): Countdown
    decreases n
  {
    if n == 0 then c else AfterTicks(Tick(c), n - 1)
  }

  /** From `t` seconds and no resend, `n` ticks leave `max(t - n, 0)` seconds, and a resend is
      allowed exactly when `n >= t`. */
  lemma {:induction false} CountdownAfter(t: nat, n: nat)
    requires t > 0
    ensures AfterTicks(Countdown(t, false), n) == Countdown(if n >= t then 0 else t - n, n >= t)
  {
    if n > 0 {
      if t == 1 {
        ZeroIsStable(n - 1);
      } else {
        CountdownAfter(t - 1, n - 1);
      }
    }
  }

  lemma {:induction false} ZeroIsStable(n: nat)
    ensures AfterTicks(Countdown(0, true), n) == Countdown(0, true)
  {
    if n > 0 {
      ZeroIsStable(n - 1);
    }
  }

  /** A resend becomes possible after exactly thirty ticks. */
  lemma ResendAfterThirtyTicks(n: nat)
    ensures AfterTicks(Countdown(RESEND_SECONDS, false), n).canResend <==> n >= 30
  {
    CountdownAfter(30, n);
  }

  class OtpForm {
    var otp: array<string>
    var isVerifying: bool
    var status: Verification
    var timer: int
    var canResend: bool
    var focus: int

    ghost predicate Valid()
      reads this, otp
    {
      && otp.Length == SLOTS
      && 0 <= focus < SLOTS
      && 0 <= timer <= RESEND_SECONDS
      && (canResend <==> timer == 0)
      && forall i :: 0 <= i < SLOTS ==> SlotValue(otp[i])
    }

    function Slots(): seq<string>
      reads this, otp
    {
      otp[..]
    }

    constructor ()
      ensures Valid() && fresh(otp)
      ensures Slots() == ["", "", "", "", "", ""]
      ensures !isVerifying && status == Unverified && timer == RESEND_SECONDS && !canResend && focus == 0
    {
      otp := new string[SLOTS](_ => "");
      isVerifying := false;
      status := Unverified;
      timer := RESEND_SECONDS;
      canResend := false;
      focus := 0;
    }

    /** `handleChange(index, value)`: ignored while verifying or for a non-empty value that is not
        all digits; otherwise the slot takes the value and focus moves on after a non-empty value.
        The input's `maxLength={1}` means the browser never delivers more than one character, and
        the inputs are disabled once verification has succeeded, so no change arrives then. */
    method HandleChange(index: int, value: string)
      requires Valid() && 0 <= index < SLOTS && |value| <= 1 && status != Success
      modifies this, otp
      ensures Valid() && otp == old(otp)
      ensures old(isVerifying) || (value != "" && !AllDigits(value)) ==>
        Slots() == old(Slots()) && focus == old(focus)
      ensures !(old(isVerifying) || (value != "" && !AllDigits(value))) ==>
        && Slots() == old(Slots())[index := value]
        && focus == (if value != "" && index < SLOTS - 1 then index + 1 else old(focus))
      ensures isVerifying == old(isVerifying) && status == old(status)
      ensures timer == old(timer) && canResend == old(canResend)
    {
      if isVerifying {
        return;
      }
      if value != "" && !AllDigits(value) {
        return;
      }
      otp[index] := value;
      if value != "" && index < SLOTS - 1 {
        focus := index + 1;
      }
    }

    /** `handleKeyDown`: Backspace on an empty slot other than the first moves focus back. */
    method HandleKeyDown(index: int, key: string)
      requires Valid() && 0 <= index < SLOTS
      modifies this`focus
      ensures Valid()
      ensures focus == if key == "Backspace" && otp[index] == "" && index > 0 then index - 1 else old(focus)
    {
      if key == "Backspace" && otp[index] == "" && index > 0 {
        focus := index - 1;
      }
    }

    /** `handlePaste`: ignored while verifying or unless the trimmed text is all digits; otherwise
        its first digits (at most six) overwrite the first slots, the others keep their values, and
        focus goes to the first empty slot, or to the last one when none is empty. The pasted-into
        input is disabled once verification has succeeded, so no paste arrives then. */
    method HandlePaste(text: string)
      requires Valid() && status != Success
      modifies this, otp
      ensures Valid() && otp == old(otp)
      ensures old(isVerifying) || !AllDigits(Trim(text)) ==> Slots() == old(Slots()) && focus == old(focus)
      ensures !(old(isVerifying) || !AllDigits(Trim(text))) ==>
        && Slots() == Overlay(old(Slots()), Trim(text))
        && focus == (if FirstEmpty(Slots()) >= 0 then FirstEmpty(Slots()) else SLOTS - 1)
      ensures isVerifying == old(isVerifying) && status == old(status)
      ensures timer == old(timer) && canResend == old(canResend)
    {
      if isVerifying {
        return;
      }
      var pasted := Trim(text);
      if !AllDigits(pasted) {
        return;
      }
      Fill(pasted);
    }

    /** The body of `handlePaste` once the pasted text is known to be digits: each of its first
        six digits goes into the slot of the same index, then focus moves. */
    method Fill(pasted: string)
      requires Valid() && AllDigits(pasted)
      modifies this`focus, otp
      ensures Valid()
      ensures Slots() == Overlay(old(Slots()), pasted)
      ensures focus == (if FirstEmpty(Slots()) >= 0 then FirstEmpty(Slots()) else SLOTS - 1)
    {
      var count := if |pasted| < SLOTS then |pasted| else SLOTS;
      var i := 0;
      while i < count
        invariant 0 <= i <= count <= SLOTS == otp.Length
        invariant focus == old(focus)
        invariant forall j :: 0 <= j < i ==> otp[j] == [pasted[j]]
        invariant forall j :: i <= j < SLOTS ==> otp[j] == old(otp[j])
      {
        otp[i] := [pasted[i]];
        i := i + 1;
      }
      assert Slots() == Overlay(old(Slots()), pasted);
      var next := FirstEmpty(otp[..]);
      focus := if next >= 0 then next else SLOTS - 1;
    }

    /** `handleVerify`: nothing unless the joined code has six characters; then verification starts
        and the code to check is returned for the delayed step. The button is disabled while a check
        is running and once one has succeeded, so no click arrives then. */
    method Verify() returns (pending: Option<string>)
      requires Valid() && !isVerifying && status != Success
      modifies this`isVerifying
      ensures Valid()
      ensures |Join(Slots())| != SLOTS ==> pending == None && isVerifying == old(isVerifying)
      ensures |Join(Slots())| == SLOTS ==> pending == Some(Join(Slots())) && isVerifying
      ensures pending.Some? <==> forall i :: 0 <= i < SLOTS ==> otp[i] != ""
    {
      JoinLength(otp[..]);
      var code := Join(otp[..]);
      if |code| != SLOTS {
        return None;
      }
      isVerifying := true;
      pending := Some(code);
    }

    /** The 1500 ms timeout of `handleVerify`: success exactly for `123456`, error otherwise. */
    method CompleteVerification(code: string)
      requires Valid()
      modifies this`status, this`isVerifying
      ensures Valid()
      ensures status == Outcome(code) && !isVerifying
    {
      status := Outcome(code);
      isVerifying := false;
    }

    /** `handleResend`: only once a resend is allowed; then every slot empties, the countdown
        restarts, the status clears and focus returns to the first slot. */
    method HandleResend()
      requires Valid()
      modifies this, otp
      ensures Valid() && otp == old(otp)
      ensures !old(canResend) ==> Slots() == old(Slots()) && timer == old(timer) && status == old(status)
                                  && canResend == old(canResend) && focus == old(focus)
      ensures old(canResend) ==>
        && Slots() == ["", "", "", "", "", ""]
        && timer == RESEND_SECONDS && !canResend && status == Unverified && focus == 0
      ensures isVerifying == old(isVerifying)
    {
      if !canResend {
        return;
      }
      timer := RESEND_SECONDS;
      canResend := false;
      status := Unverified;
      forall i | 0 <= i < SLOTS {
        otp[i] := "";
      }
      focus := 0;
    }

    /** One second of the countdown. */
    method TickSecond()
      requires Valid()
      modifies this`timer, this`canResend
      ensures Valid()
      ensures Countdown(timer, canResend) == Tick(Countdown(old(timer), old(canResend)))
    {
      if timer > 0 {
        timer := timer - 1;
        if timer == 0 {
          canResend := true;
        }
      }
    }
  }

  /** Pasting `123456` into a fresh form fills the six slots with one digit each, focuses the last
      slot, and the code then checks as valid. */
  method PasteValidCode() returns (form: OtpForm, outcome: Verification)
    ensures outcome == Success
  {
    form := new OtpForm();
    assert Trim(VALID_CODE) == VALID_CODE by {
      assert !IsWhitespace(VALID_CODE[0]) && !IsWhitespace(VALID_CODE[5]);
    }
    OverlayValidCode(form.Slots());
    form.HandlePaste(VALID_CODE);
    assert form.Slots() == ["1", "2", "3", "4", "5", "6"];
    assert form.focus == SLOTS - 1;
    JoinValidCode(form.Slots());
    var pending := form.Verify();
    form.CompleteVerification(pending.value);
    outcome := form.status;
  }
}
