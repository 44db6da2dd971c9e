/** `java.lang.ThreadLocal`, as a map from thread to that thread's value.
    Threads are not interleaved: each operation names the calling thread. */
module ThreadLocals {
  import opened Wrappers

  type ThreadId = nat

  datatype ThreadLocal<T> = ThreadLocal(values: map<ThreadId, T>) {
    /** `get()` on thread `t`; None is Java null. */
    function Get(t: ThreadId): (r: Option<T>)
      ensures r.Some? <==> t in values
      ensures r.Some? ==> r.value == values[t]
    {
      if t in values then Some(values[t]) else None
    }

    /** `set(v)` on thread `t`: only `t`'s entry changes. */
    function Set(t: ThreadId, v: T): (r: ThreadLocal<T>)
      ensures r.Get(t) == Some(v)
      ensures forall u :: u != t ==> r.Get(u) == Get(u)
    {
      ThreadLocal(values[t := v])
    }

    /** `remove()` on thread `t`: `t`'s entry is cleared, nothing else moves. */
    function Remove(t: ThreadId): (r: ThreadLocal<T>)
      ensures r.Get(t) == None
      ensures forall u :: u != t ==> r.Get(u) == Get(u)
    {
      ThreadLocal(values - {t})
    }
  }

  function Empty<T>(): (r: ThreadLocal<T>)
    ensures forall t :: r.Get(t) == None
  {
    ThreadLocal(map[])
  }

  /** Removing twice is removing once. */
  lemma RemoveIdempotent<T>(s: ThreadLocal<T>, t: ThreadId)
    ensures s.Remove(t).Remove(t) == s.Remove(t)
  {
    assert s.Remove(t).Remove(t).values == s.Remove(t).values;
  }

  /** Setting after a set replaces the earlier value without a trace. */
  lemma SetOverwrites<T>(s: ThreadLocal<T>, t: ThreadId, v: T, w: T)
    ensures s.Set(t, v).Set(t, w) == s.Set(t, w)
  {
    assert s.Set(t, v).Set(t, w).values == s.Set(t, w).values;
  }
}
