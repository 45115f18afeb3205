/** The observable effects of the acquisition pipeline and of the load
    handler, in the order they happen: calls to the caller's callbacks and to
    the collaborators (cache, download, handler slot, external event, Revit
    transaction). */
module Trace {
  import opened Wrappers

  /** The identity of a caller-supplied delegate. */
  datatype Callback = Callback(id: nat)

  datatype Effect =
    | Progress(to: Callback, stage: string)
    | Completed(to: Callback, success: bool, message: string)
    | CacheLookup(url: string)
    | Download(url: string)
    | CacheStore(url: string, extension: Option<string>)
    | Armed(path: string, nameRfa: Option<string>, callback: Option<Callback>, showDialog: bool)
    | Raised
    | TransactionStarted
    | LoadFamily(path: string, interactive: bool)
    | Committed
    | RolledBack

  /** `callback?.Invoke(success, message)` */
  function Notify(cb: Option<Callback>, success: bool, message: string): (t: seq<Effect>)
    ensures cb.None? <==> t == []
  {
    if cb.Some? then [Completed(cb.value, success, message)] else []
  }

  /** `progressCallback?.Invoke(stage)` */
  function Report(cb: Option<Callback>, stage: string): (t: seq<Effect>)
    ensures cb.None? <==> t == []
  {
    if cb.Some? then [Progress(cb.value, stage)] else []
  }

  /** The progress stages a trace reports, in order. */
  function Stages(t: seq<Effect>): seq<string>
    decreases |t|
  {
    if t == [] then []
    else (if t[0].Progress? then [t[0].stage] else []) + Stages(t[1..])
  }

  lemma {:induction false} StagesAppend(a: seq<Effect>, b: seq<Effect>)
    ensures Stages(a + b) == Stages(a) + Stages(b)
    decreases |a|
  {
    if a != [] {
      assert (a + b)[1..] == a[1..] + b;
      StagesAppend(a[1..], b);
    } else {
      assert a + b == b;
    }
  }

  /** How many completion reports a trace holds. */
  function Completions(t: seq<Effect>): nat
    decreases |t|
  {
    if t == [] then 0 else (if t[0].Completed? then 1 else 0) + Completions(t[1..])
  }

  lemma {:induction false} CompletionsAppend(a: seq<Effect>, b: seq<Effect>)
    ensures Completions(a + b) == Completions(a) + Completions(b)
    decreases |a|
  {
    if a != [] {
      assert (a + b)[1..] == a[1..] + b;
      CompletionsAppend(a[1..], b);
    } else {
      assert a + b == b;
    }
  }

  /** How many times a trace arms the load handler. */
  function Handoffs(t: seq<Effect>): nat
    decreases |t|
  {
    if t == [] then 0 else (if t[0].Armed? then 1 else 0) + Handoffs(t[1..])
  }

  lemma {:induction false} HandoffsAppend(a: seq<Effect>, b: seq<Effect>)
    ensures Handoffs(a + b) == Handoffs(a) + Handoffs(b)
    decreases |a|
  {
    if a != [] {
      assert (a + b)[1..] == a[1..] + b;
      HandoffsAppend(a[1..], b);
    } else {
      assert a + b == b;
    }
  }

  /** Stages, completions and handoffs of a trace extended by `b`. */
  lemma Extend(a: seq<Effect>, b: seq<Effect>)
    ensures Stages(a + b) == Stages(a) + Stages(b)
    ensures Completions(a + b) == Completions(a) + Completions(b)
    ensures Handoffs(a + b) == Handoffs(a) + Handoffs(b)
  {
    StagesAppend(a, b);
    CompletionsAppend(a, b);
    HandoffsAppend(a, b);
  }

  /** Stages, completions and handoffs of a single effect. */
  lemma Single(e: Effect)
    ensures Stages([e]) == if e.Progress? then [e.stage] else []
    ensures Completions([e]) == if e.Completed? then 1 else 0
    ensures Handoffs([e]) == if e.Armed? then 1 else 0
  {
    assert [e][1..] == [];
  }

  /** What a progress report contributes. */
  lemma ReportCounts(cb: Option<Callback>, stage: string)
    ensures Stages(Report(cb, stage)) == if cb.Some? then [stage] else []
    ensures Completions(Report(cb, stage)) == 0 && Handoffs(Report(cb, stage)) == 0
  {
    if cb.Some? {
      Single(Progress(cb.value, stage));
    }
  }

  /** What a completion report contributes. */
  lemma NotifyCounts(cb: Option<Callback>, success: bool, message: string)
    ensures Stages(Notify(cb, success, message)) == [] && Handoffs(Notify(cb, success, message)) == 0
    ensures Completions(Notify(cb, success, message)) == if cb.Some? then 1 else 0
  {
    if cb.Some? {
      Single(Completed(cb.value, success, message));
    }
  }
}
