/** The browser or Appium driver, seen from outside: every call either
    succeeds or raises a named WebDriverException, and the calls made are
    recorded in order. */
module Backend {
  import opened Wrappers
  import opened Errors
  import opened Locators
  import opened Capabilities

  /** A driver session; Java's WebDriver reference. */
  type Handle = nat

  /** The driver calls the framework makes. */
  datatype Call =
    | NewSession(spec: SessionSpec)
    | Maximize
    | Quit
    | Find(target: By)
    | Clear(target: By)
    | SendKeys(target: By, text: string)
    | Click(target: By)
    | IsDisplayed(target: By)
    | IsEnabled(target: By)
    | WaitClickable(target: By)
    | WaitPresent(target: By)
    /** `executeScript(code)`, with the element found by `arg` as
        `arguments[0]` when present. */
    | Script(code: Option<string>, arg: Option<By>)
    | MoveTo(target: By)
    | DoubleClick

  /** One call made on one session. */
  datatype Event = Event(session: Handle, call: Call)

  /** Which calls the driver rejects, and with what. */
  type Answer = (Handle, Call) -> Option<DriverError>

  /** The exception a call raises, if any. */
  function Fault(answer: Answer, h: Handle, c: Call): (r: Option<Ex>)
    ensures r.None? <==> answer(h, c).None?
    ensures r.Some? ==> r.value == Driver(answer(h, c).value)
  {
    match answer(h, c)
    case None => None
    case Some(d) => Some(Driver(d))
  }

  /** The calls a block made and the exception it ended with, if any. */
  datatype Trace = Trace(events: seq<Event>, error: Option<Ex>)

  /** A straight-line block of driver calls inside one `try`: the calls run
      in order on `driver` until one throws; a null driver throws
      NullPointerException at the first call, before anything is sent. */
  function Run(answer: Answer, driver: Option<Handle>, calls: seq<Call>): (t: Trace)
    ensures |t.events| <= |calls|
    ensures driver.None? ==> t.events == []
    ensures driver.Some? ==> forall i :: 0 <= i < |t.events| ==> t.events[i] == Event(driver.value, calls[i])
    ensures t.error.None? <==> forall i :: 0 <= i < |calls| ==> driver.Some? && Fault(answer, driver.value, calls[i]).None?
    ensures t.error.None? ==> |t.events| == |calls|
    ensures driver.None? && calls != [] ==> t.error == Some(NullPointer)
    ensures driver.Some? && t.error.Some? ==>
              |t.events| > 0 && t.error == Fault(answer, driver.value, calls[|t.events| - 1])
    ensures driver.Some? ==> forall i :: 0 <= i < |t.events| - 1 ==> Fault(answer, driver.value, calls[i]).None?
    decreases |calls|
  {
    if calls == [] then Trace([], None)
    else if driver.None? then Trace([], Some(NullPointer))
    else
      var h := driver.value;
      var err := Fault(answer, h, calls[0]);
      if err.Some? then Trace([Event(h, calls[0])], err)
      else
        var rest := Run(answer, driver, calls[1..]);
        Trace([Event(h, calls[0])] + rest.events, rest.error)
  }

  /** A block that ran to the end made every call, in order. */
  lemma {:induction false} CompleteRunMakesEveryCall(answer: Answer, h: Handle, calls: seq<Call>)
    requires Run(answer, Some(h), calls).error.None?
    ensures Run(answer, Some(h), calls).events == seq(|calls|, i requires 0 <= i < |calls| => Event(h, calls[i]))
  {
    var t := Run(answer, Some(h), calls);
    assert |t.events| == |calls|;
  }

  lemma ConcatAssoc<T>(a: seq<T>, b: seq<T>, c: seq<T>)
    ensures a + (b + c) == (a + b) + c
  {
  }

  /** A block whose first call succeeds is that call followed by the rest. */
  lemma RunCons(answer: Answer, h: Handle, c: Call, rest: seq<Call>)
    requires Fault(answer, h, c).None?
    ensures Run(answer, Some(h), [c] + rest) ==
              Trace([Event(h, c)] + Run(answer, Some(h), rest).events, Run(answer, Some(h), rest).error)
  {
    assert ([c] + rest)[0] == c;
    assert ([c] + rest)[1..] == rest;
  }

  /** Running two blocks back to back is running their concatenation, when
      the first one does not throw. */
  lemma {:induction false} RunAppend(answer: Answer, driver: Option<Handle>, xs: seq<Call>, ys: seq<Call>)
    requires Run(answer, driver, xs).error.None?
    ensures Run(answer, driver, xs + ys).events == Run(answer, driver, xs).events + Run(answer, driver, ys).events
    ensures Run(answer, driver, xs + ys).error == Run(answer, driver, ys).error
    decreases |xs|
  {
    if xs == [] {
      assert xs + ys == ys;
    } else {
      var h := driver.value;
      var c := xs[0];
      var tail := xs[1..];
      assert Fault(answer, h, c).None?;
      assert xs == [c] + tail;
      assert xs + ys == [c] + (tail + ys);
      RunCons(answer, h, c, tail);
      RunCons(answer, h, c, tail + ys);
      RunAppend(answer, driver, tail, ys);
      var e := [Event(h, c)];
      var a := Run(answer, driver, tail).events;
      var b := Run(answer, driver, ys).events;
      ConcatAssoc(e, a, b);
    }
  }

  /** A block that throws makes no call after the failing one, however
      many calls follow it. */
  lemma {:induction false} RunStopsAtFailure(answer: Answer, driver: Option<Handle>, xs: seq<Call>, ys: seq<Call>)
    requires Run(answer, driver, xs).error.Some?
    ensures Run(answer, driver, xs + ys) == Run(answer, driver, xs)
    decreases |xs|
  {
    assert xs != [];
    if driver.Some? && Fault(answer, driver.value, xs[0]).None? {
      var h, c, tail := driver.value, xs[0], xs[1..];
      assert xs == [c] + tail;
      assert xs + ys == [c] + (tail + ys);
      RunCons(answer, h, c, tail);
      RunCons(answer, h, c, tail + ys);
      RunStopsAtFailure(answer, driver, tail, ys);
    } else {
      assert (xs + ys)[0] == xs[0];
    }
  }

  /** The driver backend: fixed answers to every call, and the log of the
      calls made so far. */
  class Remote {
    const answer: Answer
    /** What `isDisplayed()` / `isEnabled()` report for a found element. */
    const displayed: (Handle, By) -> bool
    const enabled: (Handle, By) -> bool
    /** What `executeScript` returns (null is None). */
    const scriptValue: (Handle, Option<string>) -> Option<string>
    var events: seq<Event>
    /** Sessions opened so far; the next session gets this number. */
    var sessions: nat

    constructor(answer: Answer, displayed: (Handle, By) -> bool, enabled: (Handle, By) -> bool,
                scriptValue: (Handle, Option<string>) -> Option<string>)
      ensures this.answer == answer && this.displayed == displayed
      ensures this.enabled == enabled && this.scriptValue == scriptValue
      ensures events == [] && sessions == 0
    {
      this.answer := answer;
      this.displayed := displayed;
      this.enabled := enabled;
      this.scriptValue := scriptValue;
      events := [];
      sessions := 0;
    }

    /** Sends one call on session `h`. */
    method Perform(h: Handle, c: Call) returns (err: Option<Ex>)
      modifies this`events
      ensures events == old(events) + [Event(h, c)]
      ensures err == Fault(answer, h, c)
    {
      events := events + [Event(h, c)];
      err := Fault(answer, h, c);
    }

    /** A fresh session number. */
    method Allocate() returns (h: Handle)
      modifies this`sessions
      ensures h == old(sessions) && sessions == old(sessions) + 1
    {
      h := sessions;
      sessions := sessions + 1;
    }

    /** `driver.x()` for one call `x`. */
    method Try1(driver: Option<Handle>, c: Call) returns (err: Option<Ex>)
      modifies this`events
      ensures events == old(events) + Run(answer, driver, [c]).events
      ensures err == Run(answer, driver, [c]).error
    {
      if driver.None? {
        return Some(NullPointer);
      }
      err := Perform(driver.value, c);
      assert [c][1..] == [];
    }

    /** Two calls in a row, the second only if the first succeeded. */
    method Try2(driver: Option<Handle>, c1: Call, c2: Call) returns (err: Option<Ex>)
      modifies this`events
      ensures events == old(events) + Run(answer, driver, [c1, c2]).events
      ensures err == Run(answer, driver, [c1, c2]).error
    {
      if driver.None? {
        return Some(NullPointer);
      }
      assert [c1, c2][1..] == [c2];
      err := Try1(driver, c1);
      if err.None? {
        err := Try1(driver, c2);
      }
    }

    /** Three calls in a row, each only if the one before succeeded. */
    method Try3(driver: Option<Handle>, c1: Call, c2: Call, c3: Call) returns (err: Option<Ex>)
      modifies this`events
      ensures events == old(events) + Run(answer, driver, [c1, c2, c3]).events
      ensures err == Run(answer, driver, [c1, c2, c3]).error
    {
      if driver.None? {
        return Some(NullPointer);
      }
      assert [c1, c2, c3][1..] == [c2, c3];
      err := Try1(driver, c1);
      if err.None? {
        err := Try2(driver, c2, c3);
      }
    }
  }
}
