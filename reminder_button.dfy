/** The reminder button: the phone number of the last person who ate, the
    format check it must pass, and the rule that enables the button. */
module ReminderButton {
  import opened Js
  import opened Types
  import opened Auth

  /** A member of the character class `[0-9\s-()]`: a digit, whitespace,
      '-', '(' or ')'. */
  predicate IsPhoneChar(c: char) {
    ('0' <= c <= '9') || IsWhitespace(c) || c == '-' || c == '(' || c == ')'
  }

  /** Every character of s[from..] is in the class. */
  predicate AllPhoneChars(s: string, from: nat) {
    forall k :: from <= k < |s| ==> IsPhoneChar(s[k])
  }

  /** The language of `^\+?[0-9\s-()]+$`: an optional leading '+' followed by
      one or more characters of the class. */
  predicate IsLikelyPhoneNumber(s: string) {
    || (|s| >= 1 && AllPhoneChars(s, 0))
    || (|s| >= 2 && s[0] == '+' && AllPhoneChars(s, 1))
  }

  /** The states of the pattern's automaton: before anything, after the
      '+', inside the character run (accepting), and failed. */
  datatype MatchState = Start | AfterPlus | InRun | Failed

  function Next(q: MatchState, c: char): MatchState {
    match q
    case Start => if c == '+' then AfterPlus else if IsPhoneChar(c) then InRun else Failed
    case AfterPlus => if IsPhoneChar(c) then InRun else Failed
    case InRun => if IsPhoneChar(c) then InRun else Failed
    case Failed => Failed
  }

  /** Runs the automaton over s[i..] from state q. */
  function Run(s: string, i: nat, q: MatchState): MatchState
    requires i <= |s|
    decreases |s| - i
  {
    if i == |s| then q else Run(s, i + 1, Next(q, s[i]))
  }

  /** `/^\+?[0-9\s-()]+$/.test(s)`. */
  function TestPhonePattern(s: string): bool {
    Run(s, 0, Start) == InRun
  }

  /** From the accepting state the run stays accepting exactly while the
      characters are in the class. */
  lemma {:induction false} RunInRun(s: string, i: nat)
    requires i <= |s|
    ensures Run(s, i, InRun) == InRun <==> AllPhoneChars(s, i)
    decreases |s| - i
  {
    if i < |s| {
      RunFailed(s, i + 1);
      RunInRun(s, i + 1);
    }
  }

  lemma {:induction false} RunFailed(s: string, i: nat)
    requires i <= |s|
    ensures Run(s, i, Failed) == Failed
    decreases |s| - i
  {
    if i < |s| {
      RunFailed(s, i + 1);
    }
  }

  /** The automaton accepts exactly the strings of the pattern's language. */
  lemma PhonePatternCorrect(s: string)
    ensures TestPhonePattern(s) <==> IsLikelyPhoneNumber(s)
  {
    if |s| >= 1 {
      assert Run(s, 0, Start) == Run(s, 1, Next(Start, s[0]));
      RunFailed(s, 1);
      if s[0] == '+' {
        assert !AllPhoneChars(s, 0);
        if |s| >= 2 {
          assert Run(s, 1, AfterPlus) == Run(s, 2, Next(AfterPlus, s[1]));
          RunFailed(s, 2);
          RunInRun(s, 2);
        }
      } else {
        RunInRun(s, 1);
      }
    }
  }

  /** `!loading && typeof phoneNumber === 'string' && phoneNumber.length > 0` */
  predicate CanSendReminder(loading: bool, phoneNumber: Option<string>) {
    !loading && phoneNumber.Some? && |phoneNumber.value| > 0
  }

  /** What a click on the button leads to before the await. */
  datatype SendCheck = NoPhoneNumber | InvalidFormat | CallAction(phoneNumber: string)

  /** The checks of `handleSendReminder`, in their order. */
  function CheckSend(phoneNumber: Option<string>): (r: SendCheck)
    ensures r == NoPhoneNumber <==> !Truthy(phoneNumber)
    ensures r == InvalidFormat <==> Truthy(phoneNumber) && !IsLikelyPhoneNumber(phoneNumber.value)
    ensures r.CallAction? ==> Some(r.phoneNumber) == phoneNumber && IsLikelyPhoneNumber(r.phoneNumber)
  {
    if !Truthy(phoneNumber) then NoPhoneNumber
    else
      PhonePatternCorrect(phoneNumber.value);
      if !TestPhonePattern(phoneNumber.value) then InvalidFormat
      else CallAction(phoneNumber.value)
  }

  /** An enabled button never hits the missing-number check; it reaches the
      action exactly when the number has the expected format. */
  lemma EnabledButtonPassesNullCheck(loading: bool, phoneNumber: Option<string>)
    requires CanSendReminder(loading, phoneNumber)
    ensures CheckSend(phoneNumber) != NoPhoneNumber
    ensures CheckSend(phoneNumber).CallAction? <==> IsLikelyPhoneNumber(phoneNumber.value)
  {
  }

  /** The component's state. */
  class ReminderButtonState {
    var loading: bool
    var phoneNumber: Option<string>

    constructor ()
      ensures !loading && phoneNumber == None
    {
      loading := false;
      phoneNumber := None;
    }

    /** The effect run when the last food-intake event changes; `fetched` is
        how the read of the event author's profile ended (it is only read
        when the event names a user). */
    method FetchPhoneNumber(lastFoodIntakeEvent: Option<LogEvent>, fetched: ProfileFetch)
      modifies this
      ensures phoneNumber ==
        if lastFoodIntakeEvent.Some? && lastFoodIntakeEvent.value.userId != "" && fetched.Found?
        then Some(fetched.profile.phoneNumber) else None
      ensures lastFoodIntakeEvent.Some? && lastFoodIntakeEvent.value.userId != "" ==> !loading
      ensures !(lastFoodIntakeEvent.Some? && lastFoodIntakeEvent.value.userId != "") ==> loading == old(loading)
    {
      phoneNumber := None;
      if lastFoodIntakeEvent.Some? && lastFoodIntakeEvent.value.userId != "" {
        loading := true;
        match fetched {
          case Found(profile) => phoneNumber := Some(profile.phoneNumber);
          case Missing => phoneNumber := None;
          case FetchFailed => phoneNumber := None;
        }
        loading := false;
      } else {
        phoneNumber := None;
      }
    }

    /** `handleSendReminder` up to the awaited action call: the checks, then
        `setLoading(true)` when the action is about to run. */
    method BeginSend() returns (check: SendCheck)
      modifies this`loading
      ensures check == CheckSend(phoneNumber)
      ensures check.CallAction? ==> loading
      ensures !check.CallAction? ==> loading == old(loading)
    {
      check := CheckSend(phoneNumber);
      if check.CallAction? {
        loading := true;
      }
    }

    /** The rest of `handleSendReminder` once the action has returned: loading
        stops and the toast title reports the result. */
    method FinishSend(success: bool) returns (title: string)
      modifies this`loading
      ensures !loading
      ensures title == (if success then "Reminder Sent" else "Reminder Failed")
    {
      loading := false;
      title := if success then "Reminder Sent" else "Reminder Failed";
    }
  }
}
