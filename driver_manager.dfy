/** `DriverManager`: one driver slot per thread, set, read and quit by the
    calling thread. */
module DriverManager {
  import opened Wrappers
  import opened Errors
  import opened ThreadLocals
  import opened Backend

  class DriverManager {
    /** The static `ThreadLocal<WebDriver> driver`. */
    var driver: ThreadLocal<Handle>

    constructor()
      ensures forall t :: GetDriver(t) == None
    {
      driver := Empty();
    }

    /** `getDriver()` on thread `t`; None is null. */
    function GetDriver(t: ThreadId): (r: Option<Handle>)
      reads this
      ensures r.Some? <==> t in driver.values
    {
      driver.Get(t)
    }

    /** `setDriver(d)` on thread `t`. A driver already in the slot is
        replaced without being quit; setting null empties the slot as far as
        `getDriver` can tell. */
    method SetDriver(t: ThreadId, d: Option<Handle>)
      modifies this
      ensures GetDriver(t) == d
      ensures forall u :: u != t ==> GetDriver(u) == old(GetDriver(u))
    {
      match d
      case Some(h) => driver := driver.Set(t, h);
      case None => driver := driver.Remove(t);
    }

    /** `quitDriver()` on thread `t`: with a driver in the slot, quits it and
        then clears the slot; a failing quit leaves the slot as it was. An
        empty slot makes it do nothing at all. */
    method QuitDriver(remote: Remote, t: ThreadId) returns (r: Outcome<Ex>)
      modifies this, remote`events
      ensures old(GetDriver(t)).None? ==>
                r == Pass && driver == old(driver) && remote.events == old(remote.events)
      ensures old(GetDriver(t)).Some? ==>
                remote.events == old(remote.events) + [Event(old(GetDriver(t)).value, Quit)]
                && r == Propagate(Fault(remote.answer, old(GetDriver(t)).value, Quit))
      ensures r.Pass? ==> GetDriver(t) == None
      ensures r.Fail? ==> driver == old(driver)
      ensures forall u :: u != t ==> GetDriver(u) == old(GetDriver(u))
    {
      var current := driver.Get(t);
      if current.None? {
        return Pass;
      }
      var err := remote.Perform(current.value, Quit);
      r := Propagate(err);
      if err.None? {
        driver := driver.Remove(t);
      }
    }
  }
}
