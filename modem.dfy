/**
  The modem manager's call handling: the incoming-call handler, which answers
  and asks for the password, and the DTMF handler, which collects the digits
  typed on the phone's keypad, resets on `#` and plays a confirmation when
  the collected digits equal the fixed password. Also the SMS routing by
  message length.

  The playback bus is represented by the sequence of prompt paths handed to
  it, in order; the AT commands the handlers send are counted.
 */
module Modem {
  import opened Wrappers

  // ----- prompts and password -----

  const Password: string := "52226636"
  const IncomingMessage: string := "\U{1F4DE} Incoming voice call"

  /** The key of the predecoded prompt generated under the base name `name`. */
  function PromptPath(name: string): (path: string)
    ensures |path| == |name| + 10
    ensures path[..6] == "audio/" && path[6..|name| + 6] == name && path[|name| + 6..] == ".mp3"
  {
    "audio/" + name + ".mp3"
  }

  /** The greeting's base name, `bonjour_veuillez_entrez_votre_mot_de_passe`, kept as the three runs of its sentence. */
  const WelcomeName: string := "bonjour" + "_veuillez_entrez" + "_votre_mot_de_passe"
  const CorrectName: string := "mot_de_passe_correct"
  /** The greeting played on every call. */
  const WelcomePrompt: string := PromptPath(WelcomeName)
  /** The confirmation played once the password is complete. */
  const CorrectPrompt: string := PromptPath(CorrectName)

  /** `ModemState`: the digits typed since the last reset. */
  datatype ModemState = ModemState(password: string)

  /** `NewState`: nothing typed yet. */
  function NewState(): (s: ModemState)
    ensures s.password == []
  {
    ModemState("")
  }

  // ----- the DTMF handler as a function of the password -----

  /** What key presses leave: the password typed so far and the prompts queued, in order. */
  datatype Outcome = Outcome(password: string, prompts: seq<string>)

  /**
    The password after one key press and the prompts that key press queues:
    `#` clears the password and queues nothing; any other key is appended and
    queues its own prompt, followed by the confirmation exactly when the
    password is then complete.
   */
  function DtmfStep(password: string, digit: string): (r: Outcome)
    ensures digit == "#" ==> r == Outcome("", [])
    ensures digit != "#" ==> r.password == password + digit && 1 <= |r.prompts| <= 2 && r.prompts[0] == PromptPath(digit)
    ensures digit != "#" ==> (|r.prompts| == 2 <==> password + digit == Password)
    ensures |r.prompts| == 2 ==> r.prompts[1] == CorrectPrompt
    ensures |digit| == 1 ==> (CorrectPrompt in r.prompts <==> digit != "#" && password + digit == Password)
  {
    if digit == "#" then Outcome("", [])
    else
      var p := password + digit;
      assert |digit| == 1 ==> |PromptPath(digit)| == 11 && |CorrectPrompt| == 30;
      Outcome(p, [PromptPath(digit)] + if p == Password then [CorrectPrompt] else [])
  }

  /** The password after a series of key presses and every prompt they queue, in order. */
  function DtmfRun(password: string, digits: seq<string>): Outcome
    decreases |digits|
  {
    if digits == [] then Outcome(password, [])
    else
      var step := DtmfStep(password, digits[0]);
      var rest := DtmfRun(step.password, digits[1..]);
      Outcome(rest.password, step.prompts + rest.prompts)
  }

  /** The digits of a series of key presses, joined. */
  function Concat(digits: seq<string>): string
    decreases |digits|
  {
    if digits == [] then "" else digits[0] + Concat(digits[1..])
  }

  /** The key presses after the last `#` (all of them when there is none). */
  function AfterLastReset(digits: seq<string>): seq<string>
    decreases |digits|
  {
    if digits == [] then []
    else if digits[|digits| - 1] == "#" then []
    else AfterLastReset(digits[..|digits| - 1]) + [digits[|digits| - 1]]
  }

  /** The password only grows between resets: it is what was typed since the last `#`, after the old one if none. */
  lemma {:induction false} DtmfRunPassword(password: string, digits: seq<string>)
    ensures "#" in digits ==> DtmfRun(password, digits).password == Concat(AfterLastReset(digits))
    ensures "#" !in digits ==> DtmfRun(password, digits).password == password + Concat(digits)
    decreases |digits|
  {
    if digits != [] {
      var p := DtmfStep(password, digits[0]).password;
      DtmfRunPassword(p, digits[1..]);
      var rest := digits[1..];
      assert digits == [digits[0]] + rest;
      if "#" in rest {
        AfterLastResetTail(digits[0], rest);
      } else if digits[0] == "#" {
        AfterLastResetNone(rest);
        AfterLastResetTail(digits[0], rest);
      } else {
        assert password + digits[0] + Concat(rest) == password + (digits[0] + Concat(rest));
      }
    }
  }

  lemma {:induction false} AfterLastResetNone(digits: seq<string>)
    requires "#" !in digits
    ensures AfterLastReset(digits) == digits
    decreases |digits|
  {
    if digits != [] {
      var init := digits[..|digits| - 1];
      assert forall x :: x in init ==> x in digits;
      AfterLastResetNone(init);
    }
  }

  lemma {:induction false} AfterLastResetTail(d: string, rest: seq<string>)
    requires "#" in rest || d == "#"
    ensures "#" in rest ==> AfterLastReset([d] + rest) == AfterLastReset(rest)
    ensures "#" !in rest ==> AfterLastReset([d] + rest) == rest
    decreases |rest|
  {
    var all := [d] + rest;
    if rest == [] {
      assert all == ["#"];
      assert AfterLastReset(all) == AfterLastReset([]) + [];
    } else {
      var init := rest[..|rest| - 1];
      assert all[..|all| - 1] == [d] + init;
      if rest[|rest| - 1] != "#" {
        if "#" in init || d == "#" {
          AfterLastResetTail(d, init);
        }
        if "#" !in rest {
          AfterLastResetNone(rest);
          assert AfterLastReset([d] + init) == init;
          assert init + [rest[|rest| - 1]] == rest;
        }
      }
    }
  }

  /** How many times `x` occurs in `s`. */
  function Occurrences(s: seq<string>, x: string): nat
    decreases |s|
  {
    if s == [] then 0 else (if s[0] == x then 1 else 0) + Occurrences(s[1..], x)
  }

  lemma {:induction false} OccurrencesAppend(a: seq<string>, b: seq<string>, x: string)
    ensures Occurrences(a + b, x) == Occurrences(a, x) + Occurrences(b, x)
    decreases |a|
  {
    if a != [] {
      OccurrencesAppend(a[1..], b, x);
      assert (a + b)[0] == a[0];
      assert (a + b)[1..] == a[1..] + b;
    } else {
      assert a + b == b;
    }
  }

  /** A key press is a single character, as keypad tones are. */
  predicate KeyPresses(digits: seq<string>) {
    forall i :: 0 <= i < |digits| ==> |digits[i]| == 1
  }

  /**
    Between resets the confirmation is queued at most once, and never once the
    password is already as long as the fixed one.
   */
  lemma {:induction false} ConfirmedAtMostOnce(password: string, digits: seq<string>)
    requires KeyPresses(digits) && "#" !in digits
    ensures Occurrences(DtmfRun(password, digits).prompts, CorrectPrompt) <= 1
    ensures |password| >= |Password| ==> Occurrences(DtmfRun(password, digits).prompts, CorrectPrompt) == 0
    decreases |digits|
  {
    if digits != [] {
      var d := digits[0];
      var rest := digits[1..];
      assert forall x :: x in rest ==> x in digits;
      var p := DtmfStep(password, d).password;
      var prompts := DtmfStep(password, d).prompts;
      ConfirmedAtMostOnce(p, rest);
      OccurrencesAppend(prompts, DtmfRun(p, rest).prompts, CorrectPrompt);
      assert |PromptPath(d)| == 11 && |CorrectPrompt| == 30;
      assert PromptPath(d) != CorrectPrompt;
      if p == Password {
        assert prompts == [PromptPath(d), CorrectPrompt];
        assert Occurrences(prompts, CorrectPrompt) == 1;
      } else {
        assert prompts == [PromptPath(d)];
        assert Occurrences(prompts, CorrectPrompt) == 0;
      }
    }
  }

  /** One key press other than `#` followed by more key presses. */
  lemma DtmfRunCons(password: string, typed: string, digits: seq<string>, rest: seq<string>)
    requires |digits| >= 1 && digits[0] != "#" && digits[1..] == rest && typed == password + digits[0]
    ensures DtmfRun(password, digits).password == DtmfRun(typed, rest).password
    ensures DtmfRun(password, digits).prompts
      == [PromptPath(digits[0])] + (if typed == Password then [CorrectPrompt] else []) + DtmfRun(typed, rest).prompts
  {
  }

  /** The last four key presses of the password complete it and queue the confirmation. */
  lemma PasswordCompletion()
    ensures DtmfRun("5222", ["6", "6", "3", "6"])
      == Outcome(Password, [PromptPath("6"), PromptPath("6"), PromptPath("3"), PromptPath("6"), CorrectPrompt])
  {
    DtmfRunCons("5222663", "52226636", ["6"], []);
    DtmfRunCons("522266", "5222663", ["3", "6"], ["6"]);
    DtmfRunCons("52226", "522266", ["6", "3", "6"], ["3", "6"]);
    DtmfRunCons("5222", "52226", ["6", "6", "3", "6"], ["6", "3", "6"]);
  }

  /** Typing 2,2,2,6,6,3,6 after 5 completes the password and queues the confirmation last. */
  lemma AfterFirstDigit()
    ensures DtmfRun("5", ["2", "2", "2", "6", "6", "3", "6"])
      == Outcome(Password, [PromptPath("2"), PromptPath("2"), PromptPath("2"),
                     PromptPath("6"), PromptPath("6"), PromptPath("3"), PromptPath("6"), CorrectPrompt])
  {
    PasswordCompletion();
    DtmfRunCons("522", "5222", ["2", "6", "6", "3", "6"], ["6", "6", "3", "6"]);
    DtmfRunCons("52", "522", ["2", "2", "6", "6", "3", "6"], ["2", "6", "6", "3", "6"]);
    DtmfRunCons("5", "52", ["2", "2", "2", "6", "6", "3", "6"], ["2", "2", "6", "6", "3", "6"]);
  }

  /** Typing 5,2,2,2,6,6,3,6 on a fresh state gives the password and one confirmation, last. */
  lemma CorrectPasswordExample()
    ensures DtmfRun("", ["5", "2", "2", "2", "6", "6", "3", "6"])
      == Outcome(Password, [PromptPath("5"), PromptPath("2"), PromptPath("2"), PromptPath("2"),
                     PromptPath("6"), PromptPath("6"), PromptPath("3"), PromptPath("6"), CorrectPrompt])
  {
    AfterFirstDigit();
    DtmfRunCons("", "5", ["5", "2", "2", "2", "6", "6", "3", "6"], ["2", "2", "2", "6", "6", "3", "6"]);
  }

  /** Typing 1,2,3,# on a fresh state clears what was typed and never confirms. */
  lemma ResetExample()
    ensures DtmfRun("", ["1", "2", "3", "#"]) == Outcome("", [PromptPath("1"), PromptPath("2"), PromptPath("3")])
  {
    assert DtmfRun("123", ["#"]) == Outcome("", []);
    DtmfRunCons("12", "123", ["3", "#"], ["#"]);
    assert "123" != Password;
    assert DtmfRun("12", ["3", "#"]).prompts == [PromptPath("3")];
    DtmfRunCons("1", "12", ["2", "3", "#"], ["3", "#"]);
    assert DtmfRun("1", ["2", "3", "#"]).prompts == [PromptPath("2"), PromptPath("3")];
    DtmfRunCons("", "1", ["1", "2", "3", "#"], ["2", "3", "#"]);
    assert "1" != Password;
    assert DtmfRun("", ["1", "2", "3", "#"]).prompts == [PromptPath("1"), PromptPath("2"), PromptPath("3")];
  }

  // ----- SMS routing -----

  /** The number of bytes of the UTF-8 encoding of `s` (Go's `len` of a string). */
  function Utf8Length(s: string): (n: nat)
    ensures |s| <= n <= 4 * |s|
    decreases |s|
  {
    if s == [] then 0
    else
      var c := s[0] as int;
      (if c < 0x80 then 1 else if c < 0x800 then 2 else if c < 0x10000 then 3 else 4) + Utf8Length(s[1..])
  }

  datatype SmsPath = LongMessage | ShortMessage

  /** `SendSMS`: a message of more than 160 bytes is sent as a long (concatenated) message. */
  function SmsRoute(message: string): (path: SmsPath) {
    if Utf8Length(message) > 160 then LongMessage else ShortMessage
  }

  /** ASCII-only messages go long exactly beyond 160 characters; 81 two-byte characters already go long. */
  lemma SmsRouteThreshold(message: string)
    ensures (forall i :: 0 <= i < |message| ==> message[i] as int < 0x80) ==>
      (SmsRoute(message) == LongMessage <==> |message| > 160)
    ensures |message| > 160 ==> SmsRoute(message) == LongMessage
    ensures (forall i :: 0 <= i < |message| ==> 0x80 <= message[i] as int < 0x800) && |message| > 80 ==>
      SmsRoute(message) == LongMessage
  {
    if forall i :: 0 <= i < |message| ==> message[i] as int < 0x80 {
      Utf8LengthAscii(message);
    }
    if forall i :: 0 <= i < |message| ==> 0x80 <= message[i] as int < 0x800 {
      Utf8LengthTwoByte(message);
    }
  }

  lemma {:induction false} Utf8LengthAscii(s: string)
    requires forall i :: 0 <= i < |s| ==> s[i] as int < 0x80
    ensures Utf8Length(s) == |s|
    decreases |s|
  {
    if s != [] {
      Utf8LengthAscii(s[1..]);
    }
  }

  lemma {:induction false} Utf8LengthTwoByte(s: string)
    requires forall i :: 0 <= i < |s| ==> 0x80 <= s[i] as int < 0x800
    ensures Utf8Length(s) == 2 * |s|
    decreases |s|
  {
    if s != [] {
      Utf8LengthTwoByte(s[1..]);
    }
  }

  // ----- the manager -----

  /**
    The parts of `ModemManager` the call handlers change: the keypad state
    (absent until the first call), the prompts handed to the playback bus,
    the notifications passed to the owner's callback and the answer commands sent.
   */
  class ModemManager {
    var state: Option<ModemState>
    var prompts: seq<string>
    var notifications: seq<(string, string)>
    var answered: nat

    /** `NewModemManager`: no call yet, so no keypad state. */
    constructor ()
      ensures state == None && prompts == [] && notifications == [] && answered == 0
    {
      state := None;
      prompts := [];
      notifications := [];
      answered := 0;
    }

    /** The incoming-call handler: notify, answer, reset the keypad state, ask for the password. */
    method OnIncomingCall(caller: string)
      modifies this
      ensures notifications == old(notifications) + [(caller, IncomingMessage)]
      ensures answered == old(answered) + 1
      ensures state == Some(NewState())
      ensures prompts == old(prompts) + [WelcomePrompt]
    {
      notifications := notifications + [(caller, IncomingMessage)];
      answered := answered + 1;
      state := Some(NewState());
      prompts := prompts + [WelcomePrompt];
    }

    /**
      The DTMF handler. Any key but `#` needs the state an incoming call
      created (before the first call the handler would dereference nothing).
     */
    method OnDtmf(digit: string)
      requires digit == "#" || state.Some?
      modifies this
      ensures var before := if old(state).Some? then old(state).value.password else "";
        && state == Some(ModemState(DtmfStep(before, digit).password))
        && prompts == old(prompts) + DtmfStep(before, digit).prompts
      ensures notifications == old(notifications) && answered == old(answered)
    {
      if digit == "#" {
        state := Some(NewState());
        return;
      }
      prompts := prompts + [PromptPath(digit)];
      var password := state.value.password + digit;
      state := Some(ModemState(password));
      if password == Password {
        prompts := prompts + [CorrectPrompt];
      }
    }
  }

}
