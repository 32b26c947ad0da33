/** The two allowance stores. */
module AllowanceStores {
  // The two stores behind the allowance ledger: a map in memory
  // (packages/governor/src/allowance-store-memory.ts) and rows in PostgreSQL
  // (packages/governor/src/allowance-store-postgres.ts), one statement one step.

  import opened Prelude

  datatype Key = Key(source: Source, periodStart: int)

  datatype Usage = Usage(consumed: int, warnedAt: Option<int>, stoppedAt: Option<int>)

  const NO_USAGE := Usage(0, None, None)

  type Rows = map<Key, Usage>

  datatype StoreCall =
    | Read(key: Key)
    | Reserve(key: Key, amount: nat, limit: nat)
    | Release(key: Key, amount: nat)
    | MarkWarned(key: Key, at: int)
    | MarkStopped(key: Key, at: int)

  datatype Answer =
    | Found(usage: Usage)
    | Reserved(granted: bool, consumed: int)
    | Released
    | Marked(first: bool)

  /** What a missing row reads as, in either store. */
  function View(rows: Rows, key: Key): Usage {
    if key in rows then rows[key] else NO_USAGE
  }

  // ---------------------------------------------------------------------------
  // The memory store: every method first makes sure the record exists.
  // ---------------------------------------------------------------------------

  function MemoryAnswer(rows: Rows, call: StoreCall): Answer {
    var u := View(rows, call.key);
    match call
    case Read(_) => Found(u)
    case Reserve(_, amount, limit) =>
      if u.consumed + amount > limit then Reserved(false, u.consumed) else Reserved(true, u.consumed + amount)
    case Release(_, _) => Released
    case MarkWarned(_, _) => Marked(u.warnedAt == None)
    case MarkStopped(_, _) => Marked(u.stoppedAt == None)
  }

  function MemoryAfter(rows: Rows, call: StoreCall): Rows {
    var u := View(rows, call.key);
    rows[call.key :=
      match call
      case Read(_) => u
      case Reserve(_, amount, limit) => if u.consumed + amount > limit then u else u.(consumed := u.consumed + amount)
      case Release(_, amount) => u.(consumed := Max(0, u.consumed - amount))
      case MarkWarned(_, at) => if u.warnedAt == None then u.(warnedAt := Some(at)) else u
      case MarkStopped(_, at) => if u.stoppedAt == None then u.(stoppedAt := Some(at)) else u]
  }

  // ---------------------------------------------------------------------------
  // The PostgreSQL store: conditional statements over the rows that exist.
  // ---------------------------------------------------------------------------

  function PostgresAnswer(rows: Rows, call: StoreCall): Answer {
    match call
    case Read(key) => Found(View(rows, key))
    case Reserve(key, amount, limit) =>
      if key !in rows then Reserved(true, amount)
      else if rows[key].consumed + amount <= limit then Reserved(true, rows[key].consumed + amount)
      else Reserved(false, rows[key].consumed)
    case Release(_, _) => Released
    case MarkWarned(key, _) => Marked(key in rows && rows[key].warnedAt == None)
    case MarkStopped(key, _) => Marked(key !in rows || rows[key].stoppedAt == None)
  }

  function PostgresAfter(rows: Rows, call: StoreCall): Rows {
    match call
    case Read(_) => rows
    case Reserve(key, amount, limit) =>
      if key !in rows then rows[key := Usage(amount, None, None)]
      else if rows[key].consumed + amount <= limit then rows[key := rows[key].(consumed := rows[key].consumed + amount)]
      else rows
    case Release(key, amount) =>
      if key in rows && rows[key].consumed >= amount then rows[key := rows[key].(consumed := rows[key].consumed - amount)]
      else rows
    case MarkWarned(key, at) =>
      if key in rows && rows[key].warnedAt == None then rows[key := rows[key].(warnedAt := Some(at))] else rows
    case MarkStopped(key, at) =>
      if key !in rows then rows[key := Usage(0, None, Some(at))]
      else if rows[key].stoppedAt == None then rows[key := rows[key].(stoppedAt := Some(at))]
      else rows
  }

  // ---------------------------------------------------------------------------
  // When the two agree.
  // ---------------------------------------------------------------------------

  ghost predicate SameRecords(memory: Rows, postgres: Rows) {
    forall key :: View(memory, key) == View(postgres, key)
  }

  ghost predicate NeverNegative(rows: Rows) {
    forall key :: key in rows ==> rows[key].consumed >= 0
  }

  /** What a caller can check, against the rows, before making a call. */
  predicate SafeCall(rows: Rows, call: StoreCall) {
    match call
    case Read(_) => true
    case Reserve(key, amount, limit) => key in rows || amount <= limit
    case Release(key, amount) => key !in rows || rows[key].consumed >= amount || rows[key].consumed == 0
    case MarkWarned(key, _) => key in rows
    case MarkStopped(_, _) => true
  }

  /** One call: same answer and same records afterwards, exactly when the call is safe. */
  lemma StoresAgreeIffSafe(memory: Rows, postgres: Rows, call: StoreCall)
    requires SameRecords(memory, postgres) && NeverNegative(postgres)
    ensures SafeCall(postgres, call) <==>
            && MemoryAnswer(memory, call) == PostgresAnswer(postgres, call)
            && SameRecords(MemoryAfter(memory, call), PostgresAfter(postgres, call))
  {
    var m, p := MemoryAfter(memory, call), PostgresAfter(postgres, call);
    var key := call.key;
    assert View(memory, key) == View(postgres, key);
    if SafeCall(postgres, call) {
      forall k ensures View(m, k) == View(p, k) {
        assert View(memory, k) == View(postgres, k);
      }
    } else if call.Release? {
      assert View(m, key) != View(p, key);
    }
  }

  lemma StaysNonNegative(rows: Rows, call: StoreCall)
    requires NeverNegative(rows)
    ensures NeverNegative(PostgresAfter(rows, call))
    ensures rows.Keys <= PostgresAfter(rows, call).Keys
  {
  }

  function MemoryRun(calls: seq<StoreCall>, n: nat): Rows
    requires n <= |calls|
  {
    if n == 0 then map[] else MemoryAfter(MemoryRun(calls, n - 1), calls[n - 1])
  }

  function PostgresRun(calls: seq<StoreCall>, n: nat): Rows
    requires n <= |calls|
  {
    if n == 0 then map[] else PostgresAfter(PostgresRun(calls, n - 1), calls[n - 1])
  }

  /** Was a unit of this key granted by one of the first `n` calls? */
  ghost predicate GrantedBefore(calls: seq<StoreCall>, n: nat, key: Key)
    requires n <= |calls|
  {
    exists j :: 0 <= j < n && GrantAt(calls, j, key)
  }

  predicate GrantAt(calls: seq<StoreCall>, j: nat, key: Key)
    requires j < |calls|
  {
    calls[j].Reserve? && calls[j].key == key && PostgresAnswer(PostgresRun(calls, j), calls[j]).granted
  }

  /**
   The calls the ledger can make: one unit at a time, against one limit per
   source; a unit given back, or a warning marked, only after a grant.
   */
  ghost predicate LedgerCalls(limitOf: Source -> nat, calls: seq<StoreCall>) {
    forall i {:trigger calls[i]} :: 0 <= i < |calls| ==> LedgerCall(limitOf, calls, i)
  }

  ghost predicate LedgerCall(limitOf: Source -> nat, calls: seq<StoreCall>, i: nat)
    requires i < |calls|
  {
    match calls[i]
    case Read(_) => true
    case Reserve(key, amount, limit) => amount == 1 && limit == limitOf(key.source) && limit >= 1
    case Release(key, amount) => amount == 1 && GrantedBefore(calls, i, key)
    case MarkWarned(key, _) => GrantedBefore(calls, i, key)
    case MarkStopped(_, _) => true
  }

  lemma {:induction false} GrantedRowsStay(calls: seq<StoreCall>, j: nat, n: nat, key: Key)
    requires j < n <= |calls| && GrantAt(calls, j, key)
    ensures key in PostgresRun(calls, n)
    decreases n
  {
    if j + 1 < n {
      GrantedRowsStay(calls, j, n - 1, key);
    }
  }

  /** INTERCHANGEABILITY: every sequence the ledger can generate gets the same answers and leaves the same records. */
  lemma {:induction false} StoresAreInterchangeable(limitOf: Source -> nat, calls: seq<StoreCall>, n: nat)
    requires LedgerCalls(limitOf, calls) && n <= |calls|
    ensures SameRecords(MemoryRun(calls, n), PostgresRun(calls, n)) && NeverNegative(PostgresRun(calls, n))
    ensures n < |calls| ==> MemoryAnswer(MemoryRun(calls, n), calls[n]) == PostgresAnswer(PostgresRun(calls, n), calls[n])
  {
    if n > 0 {
      StoresAreInterchangeable(limitOf, calls, n - 1);
      LedgerCallIsSafe(limitOf, calls, n - 1);
      StoresAgreeIffSafe(MemoryRun(calls, n - 1), PostgresRun(calls, n - 1), calls[n - 1]);
      StaysNonNegative(PostgresRun(calls, n - 1), calls[n - 1]);
    }
    if n < |calls| {
      LedgerCallIsSafe(limitOf, calls, n);
      StoresAgreeIffSafe(MemoryRun(calls, n), PostgresRun(calls, n), calls[n]);
    }
  }

  lemma LedgerCallIsSafe(limitOf: Source -> nat, calls: seq<StoreCall>, i: nat)
    requires LedgerCalls(limitOf, calls) && i < |calls|
    requires NeverNegative(PostgresRun(calls, i))
    ensures SafeCall(PostgresRun(calls, i), calls[i])
  {
    assert LedgerCall(limitOf, calls, i);
    if calls[i].MarkWarned? {
      var j :| 0 <= j < i && GrantAt(calls, j, calls[i].key);
      GrantedRowsStay(calls, j, i, calls[i].key);
    }
  }

  // ---------------------------------------------------------------------------
  // A stop is marked by two statements; other sessions may run between them.
  // ---------------------------------------------------------------------------

  /** The insert, which does nothing when the row is there; and whether it inserted. */
  function InsertStopped(rows: Rows, key: Key, at: int): (Rows, bool) {
    if key in rows then (rows, false) else (rows[key := Usage(0, None, Some(at))], true)
  }

  /** The conditional update; and whether it found the mark unset. */
  function UpdateStopped(rows: Rows, key: Key, at: int): (Rows, bool) {
    if key in rows && rows[key].stoppedAt == None then (rows[key := rows[key].(stoppedAt := Some(at))], true) else (rows, false)
  }

  /** Whatever runs between the two, they are one `MarkStopped`: at the insert if it decides, else at the update. */
  lemma TwoStatementsAreOne(rows: Rows, later: Rows, key: Key, at: int)
    requires rows.Keys <= later.Keys
    ensures var call := StoreCall.MarkStopped(key, at);
            if InsertStopped(rows, key, at).1
            then InsertStopped(rows, key, at).0 == PostgresAfter(rows, call) && PostgresAnswer(rows, call) == Marked(true)
            else && InsertStopped(rows, key, at).0 == rows
                 && UpdateStopped(later, key, at).0 == PostgresAfter(later, call)
                 && PostgresAnswer(later, call) == Marked(UpdateStopped(later, key, at).1)
  {
    assert key in rows.Keys ==> key in later.Keys;
  }

  // ---------------------------------------------------------------------------
  // A reservation is one statement that decides, and after a refusal one that reads.
  // ---------------------------------------------------------------------------

  /** The upsert, whose update carries its own test; and the total it returned, if it changed a row. */
  function Upsert(rows: Rows, key: Key, amount: nat, limit: nat): (Rows, Option<int>) {
    if key !in rows then (rows[key := Usage(amount, None, None)], Some(amount))
    else if rows[key].consumed + amount <= limit
    then (rows[key := rows[key].(consumed := rows[key].consumed + amount)], Some(rows[key].consumed + amount))
    else (rows, None)
  }

  /** What the caller is told, the rows having become `later` by the time a refusal reads its total. */
  function ReserveTold(rows: Rows, later: Rows, key: Key, amount: nat, limit: nat): Answer {
    var row := Upsert(rows, key, amount, limit).1;
    if row.Some? then Reserved(true, row.value) else Reserved(false, View(later, key).consumed)
  }

  /**
   Whatever runs between the two, the upsert alone decides: rows and grant are those of
   one indivisible `Reserve`, and only the total told with a refusal can be a later one.
   */
  lemma ReserveDecidesInOneStatement(rows: Rows, later: Rows, key: Key, amount: nat, limit: nat)
    ensures var call, told := StoreCall.Reserve(key, amount, limit), ReserveTold(rows, later, key, amount, limit);
            && Upsert(rows, key, amount, limit).0 == PostgresAfter(rows, call)
            && told.granted == PostgresAnswer(rows, call).granted
            && (told == PostgresAnswer(rows, call) <==> told.granted || View(later, key).consumed == View(rows, key).consumed)
            && (!told.granted ==> PostgresAfter(rows, call) == rows)
  {
  }

  // ---------------------------------------------------------------------------
  // The stores as the code writes them.
  // ---------------------------------------------------------------------------

  class MemoryStore {
    var records: Rows

    constructor ()
      ensures records == map[]
    {
      records := map[];
    }

    /** `at`: the record for this key, created empty when there is none. */
    method At(key: Key) returns (record: Usage)
      modifies this
      ensures record == View(old(records), key) && records == old(records)[key := record]
    {
      if key !in records {
        records := records[key := NO_USAGE];
      }
      record := records[key];
    }

    method Read(key: Key) returns (usage: Usage)
      modifies this
      ensures Found(usage) == MemoryAnswer(old(records), StoreCall.Read(key))
      ensures records == MemoryAfter(old(records), StoreCall.Read(key))
    {
      usage := At(key);
    }

    method Reserve(key: Key, amount: nat, limit: nat) returns (granted: bool, consumed: int)
      modifies this
      ensures Reserved(granted, consumed) == MemoryAnswer(old(records), StoreCall.Reserve(key, amount, limit))
      ensures records == MemoryAfter(old(records), StoreCall.Reserve(key, amount, limit))
    {
      var record := At(key);
      if record.consumed + amount > limit {
        return false, record.consumed;
      }
      records := records[key := record.(consumed := record.consumed + amount)];
      return true, record.consumed + amount;
    }

    method Release(key: Key, amount: nat)
      modifies this
      ensures records == MemoryAfter(old(records), StoreCall.Release(key, amount))
    {
      var record := At(key);
      records := records[key := record.(consumed := Max(0, record.consumed - amount))];
    }

    method MarkWarned(key: Key, at: int) returns (first: bool)
      modifies this
      ensures Marked(first) == MemoryAnswer(old(records), StoreCall.MarkWarned(key, at))
      ensures records == MemoryAfter(old(records), StoreCall.MarkWarned(key, at))
    {
      var record := At(key);
      if record.warnedAt != None {
        return false;
      }
      records := records[key := record.(warnedAt := Some(at))];
      return true;
    }

    method MarkStopped(key: Key, at: int) returns (first: bool)
      modifies this
      ensures Marked(first) == MemoryAnswer(old(records), StoreCall.MarkStopped(key, at))
      ensures records == MemoryAfter(old(records), StoreCall.MarkStopped(key, at))
    {
      var record := At(key);
      if record.stoppedAt != None {
        return false;
      }
      records := records[key := record.(stoppedAt := Some(at))];
      return true;
    }
  }

  class PostgresStore {
    var rows: Rows

    constructor ()
      ensures rows == map[]
    {
      rows := map[];
    }

    method Read(key: Key) returns (usage: Usage)
      ensures Found(usage) == PostgresAnswer(rows, StoreCall.Read(key))
    {
      usage := if key in rows then rows[key] else NO_USAGE;
    }

    method TryUpsert(key: Key, amount: nat, limit: nat) returns (row: Option<int>)
      modifies this
      ensures (rows, row) == Upsert(old(rows), key, amount, limit)
    {
      if key !in rows {
        rows := rows[key := Usage(amount, None, None)];
        return Some(amount);
      }
      if rows[key].consumed + amount <= limit {
        rows := rows[key := rows[key].(consumed := rows[key].consumed + amount)];
        return Some(rows[key].consumed);
      }
      return None;
    }

    /** The upsert, and after a refusal a read, with no other session between them. */
    method Reserve(key: Key, amount: nat, limit: nat) returns (granted: bool, consumed: int)
      modifies this
      ensures Reserved(granted, consumed) == PostgresAnswer(old(rows), StoreCall.Reserve(key, amount, limit))
      ensures rows == PostgresAfter(old(rows), StoreCall.Reserve(key, amount, limit))
    {
      var row := TryUpsert(key, amount, limit);
      if row.Some? {
        return true, row.value;
      }
      var current := Read(key);
      return false, current.consumed;
    }

    method Release(key: Key, amount: nat)
      modifies this
      ensures rows == PostgresAfter(old(rows), StoreCall.Release(key, amount))
    {
      if key in rows && rows[key].consumed >= amount {
        rows := rows[key := rows[key].(consumed := rows[key].consumed - amount)];
      }
    }

    method MarkWarned(key: Key, at: int) returns (first: bool)
      modifies this
      ensures Marked(first) == PostgresAnswer(old(rows), StoreCall.MarkWarned(key, at))
      ensures rows == PostgresAfter(old(rows), StoreCall.MarkWarned(key, at))
    {
      first := key in rows && rows[key].warnedAt == None;
      if first {
        rows := rows[key := rows[key].(warnedAt := Some(at))];
      }
    }

    method MarkStopped(key: Key, at: int) returns (first: bool)
      modifies this
      ensures Marked(first) == PostgresAnswer(old(rows), StoreCall.MarkStopped(key, at))
      ensures rows == PostgresAfter(old(rows), StoreCall.MarkStopped(key, at))
    {
      if key !in rows {
        rows := rows[key := Usage(0, None, Some(at))];
        return true;
      }
      first := rows[key].stoppedAt == None;
      if first {
        rows := rows[key := rows[key].(stoppedAt := Some(at))];
      }
    }
  }
}
