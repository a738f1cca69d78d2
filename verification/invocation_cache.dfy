/** The test-time activity invocation cache: a key-value store shared with
    the worker, holding three families of keys.

      workflow_dispatch::<name>  the ordered list of argument tuples a faked
                                 workflow client started <name> with
      workflow::<name>           the mock handler that replaces workflow <name>
      activity::<name>           the canned result or failure of activity <name>

    The store itself is an external key-value service; here it is the map
    field `store` of class Cache, and every operation is one read or one
    write of that map. */
module ActivityInvocationCache {
  import opened Runtime

  /** An argument or result value; its PHP representation is opaque here. */
  datatype Datum = Datum(repr: string)

  /** The arguments of one workflow start. */
  type ArgTuple = seq<Datum>

  /** A registered mock, standing for the closure a test supplies. */
  datatype Handler = Handler(token: nat)

  /** What an activity invocation failure record keeps of the throwable it
      was made from: enough to rebuild an equivalent one. */
  datatype FailureRecord = FailureRecord(className: string, message: string)

  /** A value held in the store. The first four are what this cache writes;
      NullOrFalse is a stored null or false, and Foreign any other non-array
      value, that another client of the shared store left under a key. */
  datatype Entry =
    | DispatchList(calls: seq<ArgTuple>)
    | SerializedClosure(handler: Handler)
    | InvocationResult(value: Datum)
    | InvocationFailure(failure: FailureRecord)
    | NullOrFalse
    | Foreign(repr: string)

  type Store = map<string, Entry>

  /** Returning as a list a stored value that is not one, or appending to a
      value PHP cannot turn into a list, throws. */
  datatype CacheError = NotAnArray(key: string)

  /** A request from the worker transport: its command name and options. */
  datatype Request = Request(name: string, options: map<string, string>)

  /** The promise execute returns: resolved with the stored result, encoded
      through the cache's data converter, or rejected with a throwable. */
  datatype Outcome = Resolved(value: Datum) | Rejected(error: Throwable)

  const DispatchPrefix: string := "workflow_dispatch::"
  const MockPrefix: string := "workflow::"
  const ActivityPrefix: string := "activity::"
  const InvokeActivity: string := "InvokeActivity"
  const InvalidCacheValue: Throwable :=
    Throwable("Temporal\\Exception\\InvalidArgumentException", "Invalid cache value", 0, None)

  function DispatchKey(name: string): string { DispatchPrefix + name }
  function MockKey(name: string): string { MockPrefix + name }
  function ActivityKey(name: string): string { ActivityPrefix + name }

  predicate HasPrefix(key: string, prefix: string) {
    |prefix| <= |key| && key[..|prefix|] == prefix
  }

  function Lookup(s: Store, key: string): Option<Entry> {
    if key in s then Some(s[key]) else None
  }

  /** ActivityInvocationFailure::fromThrowable and toThrowable. */
  function FromThrowable(e: Throwable): FailureRecord {
    FailureRecord(e.className, e.message)
  }

  function ToThrowable(f: FailureRecord): Throwable {
    Throwable(f.className, f.message, 0, None)
  }

  /** The activity a request names; a missing "name" option reads as "". */
  function ActivityName(r: Request): string {
    if "name" in r.options then r.options["name"] else ""
  }

  // ---------------------------------------------------------------------
  // The operations, as functions of the store

  /** The dispatch log of a workflow: empty when nothing was recorded. */
  function DispatchLog(s: Store, name: string): Result<seq<ArgTuple>, CacheError> {
    var key := DispatchKey(name);
    if key !in s then Ok([])
    else match s[key]
      case DispatchList(calls) => Ok(calls)
      case _ => Err(NotAnArray(key))
  }

  /** The list recordWorkflowDispatch appends to: the stored list, or a new
      empty one when nothing, null or false is stored (PHP's `[]=` turns
      null and false into an array); any other value cannot be appended to. */
  function AppendBase(s: Store, name: string): Result<seq<ArgTuple>, CacheError> {
    var key := DispatchKey(name);
    if key !in s then Ok([])
    else match s[key]
      case DispatchList(calls) => Ok(calls)
      case NullOrFalse => Ok([])
      case _ => Err(NotAnArray(key))
  }

  /** The store after recording one dispatch: read the log, append, write
      it back. When the value cannot be appended to the store is left as it
      was. */
  function Recorded(s: Store, name: string, args: ArgTuple): Store {
    match AppendBase(s, name)
    case Ok(calls) => s[DispatchKey(name) := DispatchList(calls + [args])]
    case Err(_) => s
  }

  /** The store after recording each of `calls` in turn. */
  function RecordAll(s: Store, name: string, calls: seq<ArgTuple>): Store
    decreases |calls|
  {
    if calls == [] then s else RecordAll(Recorded(s, name, calls[0]), name, calls[1..])
  }

  /** The registered mock of a workflow; None unless a closure is stored. */
  function WorkflowMock(s: Store, name: string): Option<Handler> {
    match Lookup(s, MockKey(name))
    case Some(SerializedClosure(h)) => Some(h)
    case _ => None
  }

  /** The gate the worker consults before running an activity. */
  predicate Handles(s: Store, r: Request) {
    r.name == InvokeActivity && ActivityKey(ActivityName(r)) in s
  }

  /** What execute makes of the entry stored for the requested activity. */
  function ExecuteIn(s: Store, r: Request): Outcome {
    match Lookup(s, ActivityKey(ActivityName(r)))
    case Some(InvocationFailure(f)) => Rejected(ToThrowable(f))
    case Some(InvocationResult(v)) => Resolved(v)
    case _ => Rejected(InvalidCacheValue)
  }

  /** An entry is of the kind this cache writes under the family of its key. */
  predicate EntryFits(key: string, e: Entry) {
    && (HasPrefix(key, DispatchPrefix) ==> e.DispatchList?)
    && (HasPrefix(key, MockPrefix) ==> e.SerializedClosure?)
    && (HasPrefix(key, ActivityPrefix) ==> e.InvocationResult? || e.InvocationFailure?)
  }

  /** Every key holds the kind of entry its family calls for: true of any
      store written only through this cache. */
  predicate WellFormed(s: Store) {
    forall k :: k in s ==> EntryFits(k, s[k])
  }

  // ---------------------------------------------------------------------
  // The class

  class Cache {
    /** The contents of the selected key-value storage. */
    var store: Store

    /** Connects to a storage that already holds `contents`. */
    constructor (contents: Store)
      ensures store == contents
    {
      store := contents;
    }

    method Clear()
      modifies this
      ensures store == map[]
      ensures WellFormed(store)
    {
      store := map[];
    }

    method RecordWorkflowDispatch(name: string, args: ArgTuple) returns (r: Result<(), CacheError>)
      modifies this
      ensures r.Ok? <==> AppendBase(old(store), name).Ok?
      ensures r.Err? ==> r.error == AppendBase(old(store), name).error
      ensures store == Recorded(old(store), name, args)
      ensures WellFormed(old(store)) ==> r.Ok? && WellFormed(store)
    {
      WellFormedRecordSucceeds(store, name);
      RecordPreservesWellFormed(store, name, args);
      var key := DispatchKey(name);
      var dispatches: seq<ArgTuple> := [];
      if key in store {
        match store[key] {
          case DispatchList(calls) =>
            dispatches := calls;
          case NullOrFalse =>
            dispatches := [];
          case _ =>
            r := Err(NotAnArray(key));
            return;
        }
      }
      dispatches := dispatches + [args];
      store := store[key := DispatchList(dispatches)];
      r := Ok(());
    }

    method GetWorkflowDispatches(name: string) returns (r: Result<seq<ArgTuple>, CacheError>)
      ensures r == DispatchLog(store, name)
    {
      var key := DispatchKey(name);
      if key !in store {
        r := Ok([]);
      } else if store[key].DispatchList? {
        r := Ok(store[key].calls);
      } else {
        r := Err(NotAnArray(key));
      }
    }

    method SaveWorkflowMock(name: string, handler: Handler)
      modifies this
      ensures store == old(store)[MockKey(name) := SerializedClosure(handler)]
      ensures WellFormed(old(store)) ==> WellFormed(store)
    {
      OwnEntriesFit(name);
      store := store[MockKey(name) := SerializedClosure(handler)];
    }

    method GetWorkflowMock(name: string) returns (h: Option<Handler>)
      ensures h == WorkflowMock(store, name)
    {
      var key := MockKey(name);
      if key in store && store[key].SerializedClosure? {
        h := Some(store[key].handler);
      } else {
        h := None;
      }
    }

    method SaveCompletion(name: string, value: Datum)
      modifies this
      ensures store == old(store)[ActivityKey(name) := InvocationResult(value)]
      ensures WellFormed(old(store)) ==> WellFormed(store)
    {
      OwnEntriesFit(name);
      store := store[ActivityKey(name) := InvocationResult(value)];
    }

    method SaveFailure(name: string, error: Throwable)
      modifies this
      ensures store == old(store)[ActivityKey(name) := InvocationFailure(FromThrowable(error))]
      ensures WellFormed(old(store)) ==> WellFormed(store)
    {
      OwnEntriesFit(name);
      store := store[ActivityKey(name) := InvocationFailure(FromThrowable(error))];
    }

    method CanHandle(r: Request) returns (b: bool)
      ensures b == Handles(store, r)
    {
      if r.name != InvokeActivity {
        return false;
      }
      b := ActivityKey(ActivityName(r)) in store;
    }

    method Execute(r: Request) returns (o: Outcome)
      ensures o == ExecuteIn(store, r)
    {
      var key := ActivityKey(ActivityName(r));
      if key in store && store[key].InvocationFailure? {
        return Rejected(ToThrowable(store[key].failure));
      }
      if key in store && store[key].InvocationResult? {
        return Resolved(store[key].value);
      }
      o := Rejected(InvalidCacheValue);
    }
  }

  // ---------------------------------------------------------------------
  // Keys

  lemma PrefixedKeys(name: string)
    ensures HasPrefix(DispatchKey(name), DispatchPrefix)
    ensures HasPrefix(MockKey(name), MockPrefix)
    ensures HasPrefix(ActivityKey(name), ActivityPrefix)
  {
  }

  /** No key carries two of the three prefixes: "workflow_dispatch::" and
      "workflow::" differ at index 8, and "activity::" differs from both at
      index 0. */
  lemma PrefixesExclusive(key: string)
    ensures HasPrefix(key, DispatchPrefix) ==> !HasPrefix(key, MockPrefix) && !HasPrefix(key, ActivityPrefix)
    ensures HasPrefix(key, MockPrefix) ==> !HasPrefix(key, ActivityPrefix)
  {
    if HasPrefix(key, DispatchPrefix) {
      assert key[8] == key[..|DispatchPrefix|][8] == '_';
      assert key[0] == key[..|DispatchPrefix|][0] == 'w';
    }
    if HasPrefix(key, MockPrefix) {
      assert key[8] == key[..|MockPrefix|][8] == ':';
      assert key[0] == key[..|MockPrefix|][0] == 'w';
    }
    if HasPrefix(key, ActivityPrefix) {
      assert key[0] == key[..|ActivityPrefix|][0] == 'a';
    }
  }

  /** The three key families are disjoint, whatever the names. */
  lemma KeyFamiliesDisjoint(n: string, m: string)
    ensures DispatchKey(n) != MockKey(m)
    ensures DispatchKey(n) != ActivityKey(m)
    ensures MockKey(n) != ActivityKey(m)
  {
    PrefixedKeys(n);
    PrefixedKeys(m);
    PrefixesExclusive(DispatchKey(n));
    PrefixesExclusive(MockKey(n));
  }

  /** Within a family, distinct names give distinct keys. */
  lemma KeysInjective(n: string, m: string)
    ensures DispatchKey(n) == DispatchKey(m) ==> n == m
    ensures MockKey(n) == MockKey(m) ==> n == m
    ensures ActivityKey(n) == ActivityKey(m) ==> n == m
  {
    assert DispatchKey(n)[|DispatchPrefix|..] == n && DispatchKey(m)[|DispatchPrefix|..] == m;
    assert MockKey(n)[|MockPrefix|..] == n && MockKey(m)[|MockPrefix|..] == m;
    assert ActivityKey(n)[|ActivityPrefix|..] == n && ActivityKey(m)[|ActivityPrefix|..] == m;
  }

  /** Each operation writes an entry that fits its key. */
  lemma OwnEntriesFit(name: string)
    ensures forall calls :: EntryFits(DispatchKey(name), DispatchList(calls))
    ensures forall h :: EntryFits(MockKey(name), SerializedClosure(h))
    ensures forall v :: EntryFits(ActivityKey(name), InvocationResult(v))
    ensures forall f :: EntryFits(ActivityKey(name), InvocationFailure(f))
  {
    PrefixedKeys(name);
    PrefixesExclusive(DispatchKey(name));
    PrefixesExclusive(MockKey(name));
    PrefixesExclusive(ActivityKey(name));
  }

  // ---------------------------------------------------------------------
  // Dispatch log

  /** One recording appends `args` to the list it read; a readable log is
      the list it appends to; a value that cannot be appended to leaves the
      store as it was. */
  lemma RecordAppends(s: Store, name: string, args: ArgTuple)
    ensures DispatchLog(s, name).Ok? ==> AppendBase(s, name) == DispatchLog(s, name)
    ensures AppendBase(s, name).Ok? ==>
      DispatchLog(Recorded(s, name, args), name) == Ok(AppendBase(s, name).value + [args])
    ensures AppendBase(s, name).Err? ==> Recorded(s, name, args) == s
  {
  }

  /** A null or false under a dispatch key is no log to read, yet recording
      onto it starts a fresh log holding just the new call. */
  lemma RecordOnNullOrFalse(s: Store, name: string, args: ArgTuple)
    requires DispatchKey(name) in s && s[DispatchKey(name)] == NullOrFalse
    ensures DispatchLog(s, name) == Err(NotAnArray(DispatchKey(name)))
    ensures DispatchLog(Recorded(s, name, args), name) == Ok([args])
  {
    RecordAppends(s, name, args);
    assert AppendBase(s, name) == Ok([]);
    assert AppendBase(s, name).value + [args] == [args];
  }

  /** Recording a sequence of dispatches appends them in the order they
      were made: from an empty store, recording [1] then [2] gives [[1], [2]]. */
  lemma {:induction false} RecordAllAppendsInOrder(s: Store, name: string, calls: seq<ArgTuple>)
    requires DispatchLog(s, name).Ok?
    ensures DispatchLog(RecordAll(s, name, calls), name) == Ok(DispatchLog(s, name).value + calls)
    decreases |calls|
  {
    var log := DispatchLog(s, name).value;
    if calls == [] {
      assert log + calls == log;
    } else {
      var next := Recorded(s, name, calls[0]);
      RecordAppends(s, name, calls[0]);
      RecordAllAppendsInOrder(next, name, calls[1..]);
      assert (log + [calls[0]]) + calls[1..] == log + calls;
    }
  }

  /** Recording under one name changes no mock, no activity entry and no
      other workflow's log. */
  lemma RecordFrame(s: Store, n: string, args: ArgTuple, m: string, r: Request)
    ensures WorkflowMock(Recorded(s, n, args), m) == WorkflowMock(s, m)
    ensures Lookup(Recorded(s, n, args), ActivityKey(m)) == Lookup(s, ActivityKey(m))
    ensures Handles(Recorded(s, n, args), r) == Handles(s, r)
    ensures ExecuteIn(Recorded(s, n, args), r) == ExecuteIn(s, r)
    ensures m != n ==> DispatchLog(Recorded(s, n, args), m) == DispatchLog(s, m)
  {
    KeyFamiliesDisjoint(n, m);
    KeyFamiliesDisjoint(n, ActivityName(r));
    KeysInjective(n, m);
  }

  lemma WellFormedRecordSucceeds(s: Store, name: string)
    ensures WellFormed(s) ==> DispatchLog(s, name).Ok? && AppendBase(s, name).Ok?
  {
  }

  lemma RecordPreservesWellFormed(s: Store, name: string, args: ArgTuple)
    ensures WellFormed(s) ==> WellFormed(Recorded(s, name, args))
  {
    OwnEntriesFit(name);
  }

  // ---------------------------------------------------------------------
  // Workflow mocks

  /** A saved mock is returned by the next lookup; a later save replaces
      it. */
  lemma MockLastWriteWins(s: Store, name: string, h1: Handler, h2: Handler)
    ensures WorkflowMock(s[MockKey(name) := SerializedClosure(h1)], name) == Some(h1)
    ensures WorkflowMock(s[MockKey(name) := SerializedClosure(h1)][MockKey(name) := SerializedClosure(h2)], name) == Some(h2)
  {
  }

  /** A lookup finds a mock exactly when a closure is stored under its key. */
  lemma MockOnlyFromClosure(s: Store, name: string)
    ensures WorkflowMock(s, name).Some? <==> MockKey(name) in s && s[MockKey(name)].SerializedClosure?
    ensures WorkflowMock(s, name).Some? ==> s[MockKey(name)] == SerializedClosure(WorkflowMock(s, name).value)
  {
  }

  /** Saving a mock changes no dispatch log, no activity entry and no other
      workflow's mock. */
  lemma SaveMockFrame(s: Store, n: string, h: Handler, m: string, r: Request)
    ensures DispatchLog(s[MockKey(n) := SerializedClosure(h)], m) == DispatchLog(s, m)
    ensures Lookup(s[MockKey(n) := SerializedClosure(h)], ActivityKey(m)) == Lookup(s, ActivityKey(m))
    ensures Handles(s[MockKey(n) := SerializedClosure(h)], r) == Handles(s, r)
    ensures ExecuteIn(s[MockKey(n) := SerializedClosure(h)], r) == ExecuteIn(s, r)
    ensures m != n ==> WorkflowMock(s[MockKey(n) := SerializedClosure(h)], m) == WorkflowMock(s, m)
  {
    KeyFamiliesDisjoint(m, n);
    KeyFamiliesDisjoint(n, m);
    KeyFamiliesDisjoint(n, ActivityName(r));
    KeysInjective(n, m);
  }

  // ---------------------------------------------------------------------
  // Activity entries

  /** Saving a completion or a failure changes no dispatch log, no mock and
      no other activity's entry. */
  lemma SaveActivityFrame(s: Store, n: string, e: Entry, m: string)
    ensures DispatchLog(s[ActivityKey(n) := e], m) == DispatchLog(s, m)
    ensures WorkflowMock(s[ActivityKey(n) := e], m) == WorkflowMock(s, m)
    ensures m != n ==> Lookup(s[ActivityKey(n) := e], ActivityKey(m)) == Lookup(s, ActivityKey(m))
  {
    KeyFamiliesDisjoint(m, n);
    KeysInjective(n, m);
  }

  /** Completion and failure share one key: whichever is saved later is
      what execute answers with. */
  lemma ActivityLastWriteWins(s: Store, r: Request, v: Datum, e: Throwable)
    ensures ExecuteIn(s[ActivityKey(ActivityName(r)) := InvocationResult(v)]
                       [ActivityKey(ActivityName(r)) := InvocationFailure(FromThrowable(e))], r)
            == Rejected(ToThrowable(FromThrowable(e)))
    ensures ExecuteIn(s[ActivityKey(ActivityName(r)) := InvocationFailure(FromThrowable(e))]
                       [ActivityKey(ActivityName(r)) := InvocationResult(v)], r)
            == Resolved(v)
  {
  }

  /** A saved failure comes back as a rejection with the original class and
      message. */
  lemma FailureOutcomeKeepsError(s: Store, r: Request, e: Throwable)
    ensures ExecuteIn(s[ActivityKey(ActivityName(r)) := InvocationFailure(FromThrowable(e))], r).Rejected?
    ensures ExecuteIn(s[ActivityKey(ActivityName(r)) := InvocationFailure(FromThrowable(e))], r).error.className == e.className
    ensures ExecuteIn(s[ActivityKey(ActivityName(r)) := InvocationFailure(FromThrowable(e))], r).error.message == e.message
  {
  }

  /** The gate: only an activity invocation whose activity has an entry is
      handled; a missing name means the key "activity::". */
  lemma HandlesExactly(s: Store, r: Request)
    ensures r.name != InvokeActivity ==> !Handles(s, r)
    ensures r.name == InvokeActivity ==> (Handles(s, r) <==> ActivityKey(ActivityName(r)) in s)
    ensures "name" !in r.options ==> (Handles(s, r) <==> r.name == InvokeActivity && ActivityPrefix in s)
  {
    assert "name" !in r.options ==> ActivityKey(ActivityName(r)) == ActivityPrefix;
  }

  /** Once a completion or a failure is saved for an activity, a request to
      invoke it is handled. */
  lemma SavedActivityIsHandled(s: Store, r: Request, e: Entry)
    requires r.name == InvokeActivity
    ensures Handles(s[ActivityKey(ActivityName(r)) := e], r)
  {
  }

  /** In a well-formed store a handled request is answered from the stored
      record: the "Invalid cache value" branch is never taken. */
  lemma HandledRequestUsesRecord(s: Store, r: Request)
    requires WellFormed(s) && Handles(s, r)
    ensures s[ActivityKey(ActivityName(r))].InvocationResult? || s[ActivityKey(ActivityName(r))].InvocationFailure?
    ensures s[ActivityKey(ActivityName(r))].InvocationResult? ==>
      ExecuteIn(s, r) == Resolved(s[ActivityKey(ActivityName(r))].value)
    ensures s[ActivityKey(ActivityName(r))].InvocationFailure? ==>
      ExecuteIn(s, r) == Rejected(ToThrowable(s[ActivityKey(ActivityName(r))].failure))
  {
  }

  /** Anything but a result or failure record, or no entry, is rejected
      with "Invalid cache value". */
  lemma OtherEntriesRejected(s: Store, r: Request)
    requires Lookup(s, ActivityKey(ActivityName(r))).None?
          || !(s[ActivityKey(ActivityName(r))].InvocationResult? || s[ActivityKey(ActivityName(r))].InvocationFailure?)
    ensures ExecuteIn(s, r) == Rejected(InvalidCacheValue)
  {
  }

  // ---------------------------------------------------------------------
  // Clear

  /** After clear nothing is handled, no dispatch is recorded and no mock is
      registered. */
  lemma ClearedStoreIsEmpty(r: Request, name: string)
    ensures !Handles(map[], r)
    ensures DispatchLog(map[], name) == Ok([])
    ensures WorkflowMock(map[], name) == None
    ensures ExecuteIn(map[], r) == Rejected(InvalidCacheValue)
  {
  }
}
