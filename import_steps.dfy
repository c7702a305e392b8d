/** The three row callbacks of the import (`createAccount`, `createContact`,
    `createAccountParentRelation`) and the CSV driver loop `processCsvLoop`, as functions of
    the part of the importer they change: its account list, its row-key index, the entity
    manager log and the counter that numbers new instances. The importer class is proved
    against these functions. */
module ImportSteps {
  import opened Wrappers
  import opened ImportRules

  /** Why a row callback stopped early. All but CallOnNull are exceptions, which the driver
      loop catches; CallOnNull is the PHP Error raised by a method call on null, which
      `catch (\Exception $e)` does not catch. */
  datatype Failure =
    | MissingIdColumn(column: string)
    | UnknownCountry(code: string)
    | InvalidBirthday(text: string)
    | CallOnNull

  /** How a row callback ended. */
  datatype RowResult = Processed | Skipped | Raised(failure: Failure)

  /** The importer state the row callbacks change. `accounts` is the account list (a handle
      is a position in it), `index` the row-key index and `serial` the number of the next
      instance created. */
  datatype ImportState = ImportState(accounts: seq<Account>, index: map<string, nat>, serial: nat)

  /** The category and tag caches, loaded from the datastore at construction. */
  datatype Caches = Caches(categories: map<string, Category>, tags: map<string, Tag>)

  /** The result of a row callback, the state after it, and the records it persisted, in
      order. */
  datatype Outcome = Outcome(result: RowResult, state: ImportState, persisted: seq<Persisted>)

  /** Every handle the state holds names an account of the list. */
  predicate HandlesValid(st: ImportState)
  {
    (forall k :: k in st.index ==> st.index[k] < |st.accounts|) &&
    (forall h :: 0 <= h < |st.accounts| && st.accounts[h].parent.Some? ==> st.accounts[h].parent.value < |st.accounts|)
  }

  // ---------------------------------------------------------------- createAccount

  /** The records a complete account row persists after its fields: the address, the bank
      loop's bank accounts and notes, then the account at `handle` itself. */
  function AccountTailRecords(data: Row, s: Settings, env: Env, c: Caches, serial: nat, handle: nat): seq<Persisted>
    requires Present(data, "account_name")
  {
    var f := AccountFields(data, s, env, c.categories, c.tags, serial);
    CompletionRecords(AddressFor(data, s, env), BankFrom(data, 1, BankState(f.notes, [], [])), handle)
  }

  /** The instance counter after an account row's category and tag. */
  function AccountSerial(data: Row, c: Caches, serial: nat): nat
  {
    TagSerial(data, "account_tag", c.tags, CategorySerial(data, c.categories, serial))
  }

  /** The id column, `idMappings['account_id']` (the empty text when no id mapping is set). */
  function IdColumn(s: Settings): string
  {
    if "account_id" in s.ids then s.ids["account_id"] else ""
  }

  /** An id mapping is set but the row has no such column. */
  predicate IdColumnMissing(s: Settings, data: Row)
  {
    "account_id" in s.ids && s.ids["account_id"] !in data
  }

  /** The row's value in the id column, when an id mapping is set and the row has it. */
  function IdOf(s: Settings, data: Row): Option<string>
  {
    if "account_id" in s.ids && s.ids["account_id"] in data then Some(data[s.ids["account_id"]]) else None
  }

  /** The row-key index after the id step of `createAccount` for the account at `handle`:
      the handle under the row's id value, or the index unchanged without one. */
  function RowIndex(s: Settings, index: map<string, nat>, handle: nat, data: Row): (r: map<string, nat>)
    ensures IdOf(s, data).Some? ==>
              r.Keys == index.Keys + {IdOf(s, data).value} && r[IdOf(s, data).value] == handle &&
              forall k :: k in index && k != IdOf(s, data).value ==> r[k] == index[k]
    ensures IdOf(s, data).None? ==> r == index
  {
    IndexStep(index, IdOf(s, data), handle)
  }

  /** `createAccount`: a fresh account is appended first; the row is indexed under its
      id-column value (a missing id column raises); a row without a name stops there; an
      unknown country raises after the fields are set, leaving the partly built account in
      the list; otherwise the account is completed and persisted. */
  function AccountRow(s: Settings, env: Env, c: Caches, st: ImportState, data: Row): (o: Outcome)
    ensures |o.state.accounts| == |st.accounts| + 1 && o.state.accounts[..|st.accounts|] == st.accounts
    ensures o.state.accounts[|st.accounts|].parent == None
    ensures o.result == Raised(MissingIdColumn(IdColumn(s))) <==> IdColumnMissing(s, data)
    ensures o.result.Raised? ==> o.result.failure.MissingIdColumn? || o.result.failure.UnknownCountry?
    ensures o.result == Skipped <==> !IdColumnMissing(s, data) && !Present(data, "account_name")
    ensures o.state.index == RowIndex(s, st.index, |st.accounts|, data)
    ensures o.result == Processed ==> o.state.serial == AccountSerial(data, c, st.serial)
    ensures o.result.Raised? && o.result.failure.MissingIdColumn? ==> o.persisted == []
  {
    var h := |st.accounts|;
    var appended := st.(accounts := st.accounts + [NewAccount]);
    if IdColumnMissing(s, data) then
      Outcome(Raised(MissingIdColumn(IdColumn(s))), appended, [])
    else
      var indexed := appended.(index := RowIndex(s, st.index, h, data));
      if !Present(data, "account_name") then
        Outcome(Skipped, indexed, [])
      else
        NamedAccountRow(s, env, c, indexed, h, data)
  }

  /** `createAccount` after the name check, on a state that holds the fresh account at
      `handle`: the fields are set and persisted, then an unknown country raises with the
      partly built account left in the list, or the account is completed and persisted. */
  function NamedAccountRow(s: Settings, env: Env, c: Caches, st: ImportState, handle: nat, data: Row): (o: Outcome)
    requires Present(data, "account_name") && handle < |st.accounts|
    ensures |o.state.accounts| == |st.accounts| && o.state.index == st.index
    ensures forall k :: 0 <= k < |st.accounts| && k != handle ==> o.state.accounts[k] == st.accounts[k]
    ensures o.state.serial == AccountSerial(data, c, st.serial)
    ensures o.result.Raised? <==> AddressFor(data, s, env).CountryNotFound?
    ensures o.result.Raised? ==> o.result.failure == UnknownCountry(data["country"])
    ensures !o.result.Raised? ==> o.result == Processed
  {
    var f := AccountFields(data, s, env, c.categories, c.tags, st.serial);
    var fields := AccountFieldsRecords(data, s, env, c.categories, c.tags, st.serial);
    var serial := AccountSerial(data, c, st.serial);
    var address := AddressFor(data, s, env);
    if address.CountryNotFound? then
      Outcome(Raised(UnknownCountry(address.code)), st.(accounts := st.accounts[handle := f], serial := serial), fields)
    else
      Outcome(Processed,
              st.(accounts := st.accounts[handle := AccountFor(data, s, env, c.categories, c.tags, st.serial)], serial := serial),
              fields + AccountTailRecords(data, s, env, c, st.serial, handle))
  }

  /** Every row is indexed before the name check: an unnamed row with an id enters the
      index with the handle of the empty account appended for it, and persists nothing. */
  lemma UnnamedRowIsIndexed(s: Settings, env: Env, c: Caches, st: ImportState, data: Row)
    requires "account_id" in s.ids && s.ids["account_id"] in data && !Present(data, "account_name")
    ensures var o := AccountRow(s, env, c, st, data);
      o.result == Skipped &&
      o.state.accounts == st.accounts + [NewAccount] &&
      o.state.index[data[s.ids["account_id"]]] == |st.accounts| &&
      o.persisted == [] && o.state.serial == st.serial
  {
  }

  /** A complete account row appends the completed account and persists it last. */
  lemma ProcessedAccountRow(s: Settings, env: Env, c: Caches, st: ImportState, data: Row)
    requires AccountRow(s, env, c, st, data).result == Processed
    ensures Present(data, "account_name") && !AddressFor(data, s, env).CountryNotFound?
    ensures var o := AccountRow(s, env, c, st, data);
      o.state.accounts[|st.accounts|] == AccountFor(data, s, env, c.categories, c.tags, st.serial) &&
      |o.persisted| > 0 && o.persisted[|o.persisted| - 1] == AccountRecord(|st.accounts|)
  {
  }

  // ---------------------------------------------------------------- createContact

  /** The records a complete contact row persists after its tag: the address, the emails,
      phones, faxes and notes, then the contact. */
  function ContactTailRecords(data: Row, s: Settings, env: Env, c: Caches, st: ImportState): seq<Persisted>
    requires !AddressFor(data, s, env).CountryNotFound?
  {
    var k := ContactFor(data, s, env, c.tags, st.serial, st.index);
    AddressRecords(AddressFor(data, s, env)) + (ContactSeriesRecords(k) + [ContactRecord(k)])
  }

  /** `createContact`: a birthday `\DateTime` rejects raises before anything is persisted;
      an unknown country raises after the tag; otherwise the contact is built and persisted,
      last. Contacts never change the account list or the index. */
  function ContactRow(s: Settings, env: Env, c: Caches, st: ImportState, data: Row): (o: Outcome)
    ensures o.state.accounts == st.accounts && o.state.index == st.index
    ensures o.result != Skipped
    ensures o.result.Raised? ==> o.result.failure.InvalidBirthday? || o.result.failure.UnknownCountry?
    ensures (o.result.Raised? && o.result.failure.InvalidBirthday?) <==>
              Present(data, "contact_birthday") && !env.parsesDate(data["contact_birthday"])
    ensures o.result.Raised? && o.result.failure.InvalidBirthday? ==>
              o.result.failure.text == data["contact_birthday"] && o.state == st && o.persisted == []
  {
    if Present(data, "contact_birthday") && !env.parsesDate(data["contact_birthday"]) then
      Outcome(Raised(InvalidBirthday(data["contact_birthday"])), st, [])
    else
      var tagged := st.(serial := TagSerial(data, "contact_tag", c.tags, st.serial));
      var tag := TagRecords(data, "contact_tag", c.tags, st.serial);
      var address := AddressFor(data, s, env);
      if address.CountryNotFound? then
        Outcome(Raised(UnknownCountry(address.code)), tagged, tag)
      else
        Outcome(Processed, tagged, tag + ContactTailRecords(data, s, env, c, st))
  }

  /** A complete contact row persists the contact last, with the tag's record first when
      the tag is new. */
  lemma ProcessedContactRow(s: Settings, env: Env, c: Caches, st: ImportState, data: Row)
    requires ContactRow(s, env, c, st, data).result == Processed
    ensures !AddressFor(data, s, env).CountryNotFound?
    ensures var o := ContactRow(s, env, c, st, data);
      var k := ContactFor(data, s, env, c.tags, st.serial, st.index);
      |o.persisted| > 0 && o.persisted[|o.persisted| - 1] == ContactRecord(k) &&
      o.state.serial == TagSerial(data, "contact_tag", c.tags, st.serial) &&
      (Present(data, "contact_tag") && data["contact_tag"] !in c.tags ==> o.persisted[0] == TagRecord(k.tags[0]))
  {
  }

  // ---------------------------------------------------------------- createAccountParentRelation

  /** The handle `getAccountByKey` returns: the indexed account, or null. */
  function AccountByKey(index: map<string, nat>, key: string): (r: Option<nat>)
    ensures r.Some? <==> key in index
    ensures r.Some? ==> r.value == index[key]
  {
    if key in index then Some(index[key]) else None
  }

  /** An account after a row's parent relation: the indexed parent of a present
      `account_parent`, or null for an unknown key; unchanged without the column. */
  function Relinked(a: Account, index: map<string, nat>, data: Row): (r: Account)
    ensures r == a.(parent := r.parent)
    ensures !Present(data, "account_parent") ==> r == a
    ensures Present(data, "account_parent") ==> r.parent == AccountByKey(index, data["account_parent"])
  {
    if Present(data, "account_parent") then a.(parent := AccountByKey(index, data["account_parent"])) else a
  }

  /** `createAccountParentRelation`: with a present `account_parent`, the account at
      position row - 1 is relinked; when there is no such position the call on null is fatal.
      Nothing else changes and nothing is persisted. */
  function ParentRow(st: ImportState, data: Row, row: nat): (o: Outcome)
    ensures o.state.index == st.index && o.state.serial == st.serial && o.persisted == []
    ensures |o.state.accounts| == |st.accounts|
    ensures o.result == Raised(CallOnNull) <==> Present(data, "account_parent") && !(1 <= row <= |st.accounts|)
    ensures o.result != Raised(CallOnNull) ==> o.result == Processed
    ensures forall h :: 0 <= h < |st.accounts| && h != row - 1 ==> o.state.accounts[h] == st.accounts[h]
    ensures 1 <= row <= |st.accounts| ==> o.state.accounts[row - 1] == Relinked(st.accounts[row - 1], st.index, data)
    ensures !Present(data, "account_parent") ==> o.state == st
  {
    if !Present(data, "account_parent") then Outcome(Processed, st, [])
    else if !(1 <= row <= |st.accounts|) then Outcome(Raised(CallOnNull), st, [])
    else Outcome(Processed, st.(accounts := st.accounts[row - 1 := Relinked(st.accounts[row - 1], st.index, data)]), [])
  }

  // ---------------------------------------------------------------- the driver loop

  /** The callable `processCsvLoop` hands each data row and its row counter to. */
  type RowCallback = (ImportState, Row, nat) -> Outcome

  /** Which callback a pass of the driver loop hands the rows to. */
  datatype Pass = AccountPass | ParentPass | ContactPass

  function Callback(pass: Pass, s: Settings, env: Env, c: Caches): RowCallback
  {
    match pass
    case AccountPass => (st: ImportState, data: Row, row: nat) => AccountRow(s, env, c, st, data)
    case ParentPass => (st: ImportState, data: Row, row: nat) => ParentRow(st, data, row)
    case ContactPass => (st: ImportState, data: Row, row: nat) => ContactRow(s, env, c, st, data)
  }

  /** The callback never leaves a handle that names no account. */
  ghost predicate KeepsHandles(cb: RowCallback)
  {
    forall st: ImportState, data: Row, row: nat :: HandlesValid(st) ==> HandlesValid(cb(st, data, row).state)
  }

  /** The callback never raises the uncaught Error. */
  ghost predicate NeverFatal(cb: RowCallback)
  {
    forall st: ImportState, data: Row, row: nat :: cb(st, data, row).result != Raised(CallOnNull)
  }

  /** The callback appends exactly one account and keeps the others. */
  ghost predicate AppendsOneAccount(cb: RowCallback)
  {
    forall st: ImportState, data: Row, row: nat ::
      |cb(st, data, row).state.accounts| == |st.accounts| + 1 && cb(st, data, row).state.accounts[..|st.accounts|] == st.accounts
  }

  /** Every pass keeps the handles valid. */
  lemma CallbackKeepsHandles(pass: Pass, s: Settings, env: Env, c: Caches)
    ensures KeepsHandles(Callback(pass, s, env, c))
  {
    var cb := Callback(pass, s, env, c);
    forall st: ImportState, data: Row, row: nat | HandlesValid(st)
      ensures HandlesValid(cb(st, data, row).state)
    {
      match pass
      case AccountPass => AccountRowKeepsHandles(s, env, c, st, data);
      case ParentPass => ParentRowKeepsHandles(st, data, row);
      case ContactPass =>
    }
  }

  /** The appended account has no parent and every index entry names an account. */
  lemma AccountRowKeepsHandles(s: Settings, env: Env, c: Caches, st: ImportState, data: Row)
    requires HandlesValid(st)
    ensures HandlesValid(AccountRow(s, env, c, st, data).state)
  {
    var o := AccountRow(s, env, c, st, data);
    forall h | 0 <= h < |o.state.accounts| && o.state.accounts[h].parent.Some?
      ensures o.state.accounts[h].parent.value < |o.state.accounts|
    {
      assert h < |st.accounts| && o.state.accounts[h] == st.accounts[h];
    }
  }

  /** A relinked parent comes from the index, whose entries all name accounts. */
  lemma ParentRowKeepsHandles(st: ImportState, data: Row, row: nat)
    requires HandlesValid(st)
    ensures HandlesValid(ParentRow(st, data, row).state)
  {
    var o := ParentRow(st, data, row);
    forall h | 0 <= h < |o.state.accounts| && o.state.accounts[h].parent.Some?
      ensures o.state.accounts[h].parent.value < |o.state.accounts|
    {
      if h != row - 1 {
        assert o.state.accounts[h] == st.accounts[h];
      }
    }
  }

  /** Only the parent pass can raise the uncaught Error; the account pass adds one account
      per row. */
  lemma CallbackShapes(s: Settings, env: Env, c: Caches)
    ensures NeverFatal(Callback(AccountPass, s, env, c)) && NeverFatal(Callback(ContactPass, s, env, c))
    ensures AppendsOneAccount(Callback(AccountPass, s, env, c))
  {
  }

  /** A data line handed to a callback: its position in the file, the row counter it was
      given, and how the callback ended. */
  datatype Step = Step(line: nat, row: nat, result: RowResult)

  /** How a run of the driver loop ended: the lines ran out or the limit was reached, or an
      uncaught Error aborted it. */
  datatype LoopEnd = Completed | Aborted

  /** A run of the driver loop: how it ended, the state after it, the entity manager calls
      it made and the data lines it handed to the callback. */
  datatype Run = Run(end: LoopEnd, state: ImportState, calls: seq<EmCall>, steps: seq<Step>)

  /** The limit test of the loop, `!is_null($limit) && $row >= $limit`. */
  predicate LimitReached(limit: Option<int>, row: nat)
  {
    limit.Some? && row >= limit.value
  }

  function Prepend(step: Step, calls: seq<EmCall>, rest: Run): Run
  {
    Run(rest.end, rest.state, calls + rest.calls, [step] + rest.steps)
  }

  /** Whether the loop goes on after a data row with this outcome. */
  predicate GoesOn(limit: Option<int>, result: RowResult, row: nat)
  {
    result != Raised(CallOnNull) && (result.Raised? || !LimitReached(limit, row))
  }

  /** The row counter after a data row: it advances unless the callback raised. */
  function NextRow(result: RowResult, row: nat): nat
  {
    if result.Raised? then row else row + 1
  }

  /** The driver loop from line i on, with the header read so far and the row counter. The
      counter is 0 only at the header line; every later line is mapped over the header and
      handed to the callback, then flushed. A caught exception skips the flush, the limit
      test and the counter increment; an uncaught Error ends the loop. */
  function LoopFrom(cb: RowCallback, columns: seq<(string, string)>, limit: Option<int>, lines: seq<seq<string>>,
                    i: nat, header: seq<string>, row: nat, st: ImportState): Run
    decreases |lines| - i
  {
    if i >= |lines| then Run(Completed, st, [], [])
    else if row == 0 then
      if LimitReached(limit, 0) then Run(Completed, st, [], [])
      else LoopFrom(cb, columns, limit, lines, i + 1, lines[i], 1, st)
    else
      var o := cb(st, MapRow(columns, header, lines[i]), row);
      var step := Step(i, row, o.result);
      if GoesOn(limit, o.result, row) then
        Prepend(step, RowCalls(o), LoopFrom(cb, columns, limit, lines, i + 1, header, NextRow(o.result, row), o.state))
      else
        Run(if o.result == Raised(CallOnNull) then Aborted else Completed, o.state, RowCalls(o), [step])
  }

  /** The entity manager calls of one data row: its persists, then the flush unless the
      callback raised. */
  function RowCalls(o: Outcome): seq<EmCall>
  {
    Persists(o.persisted) + (if o.result.Raised? then [] else [Flush])
  }

  /** One data line of the driver loop. */
  lemma LoopFromData(cb: RowCallback, columns: seq<(string, string)>, limit: Option<int>, lines: seq<seq<string>>,
                     i: nat, header: seq<string>, row: nat, st: ImportState)
    requires i < |lines| && row != 0
    ensures var o := cb(st, MapRow(columns, header, lines[i]), row);
      var step := Step(i, row, o.result);
      LoopFrom(cb, columns, limit, lines, i, header, row, st) ==
        if GoesOn(limit, o.result, row) then
          Prepend(step, RowCalls(o), LoopFrom(cb, columns, limit, lines, i + 1, header, NextRow(o.result, row), o.state))
        else
          Run(if o.result == Raised(CallOnNull) then Aborted else Completed, o.state, RowCalls(o), [step])
  {
  }

  /** The steps and the end of one data line of the driver loop, without its calls. */
  lemma LoopStepsData(cb: RowCallback, columns: seq<(string, string)>, limit: Option<int>, lines: seq<seq<string>>,
                      i: nat, header: seq<string>, row: nat, st: ImportState)
    requires i < |lines| && row != 0
    ensures var o := cb(st, MapRow(columns, header, lines[i]), row);
      var r := LoopFrom(cb, columns, limit, lines, i, header, row, st);
      var rest := LoopFrom(cb, columns, limit, lines, i + 1, header, NextRow(o.result, row), o.state);
      if GoesOn(limit, o.result, row) then
        r.steps == [Step(i, row, o.result)] + rest.steps && r.end == rest.end && |r.steps| == 1 + |rest.steps|
      else
        r.steps == [Step(i, row, o.result)] && r.end == (if o.result == Raised(CallOnNull) then Aborted else Completed)
  {
    LoopFromData(cb, columns, limit, lines, i, header, row, st);
  }

  /** The end and the final state of a data line the loop goes on after. */
  lemma LoopStateData(cb: RowCallback, columns: seq<(string, string)>, limit: Option<int>, lines: seq<seq<string>>,
                      i: nat, header: seq<string>, row: nat, st: ImportState)
    requires i < |lines| && row != 0
    requires GoesOn(limit, cb(st, MapRow(columns, header, lines[i]), row).result, row)
    ensures var o := cb(st, MapRow(columns, header, lines[i]), row);
      var r := LoopFrom(cb, columns, limit, lines, i, header, row, st);
      var rest := LoopFrom(cb, columns, limit, lines, i + 1, header, NextRow(o.result, row), o.state);
      r.end == rest.end && r.state == rest.state
  {
    LoopFromData(cb, columns, limit, lines, i, header, row, st);
  }

  /** `processCsvLoop` over the lines of one file, line 0 being the header. */
  function CsvLoop(pass: Pass, s: Settings, env: Env, c: Caches, lines: seq<seq<string>>, st: ImportState): Run
  {
    LoopFrom(Callback(pass, s, env, c), s.columns, s.limit, lines, 0, [], 0, st)
  }

  /** The row a data line of a file maps to. */
  function LineData(s: Settings, lines: seq<seq<string>>, l: nat): Row
    requires 0 < l < |lines|
  {
    MapRow(s.columns, lines[0], lines[l])
  }

  // ---------------------------------------------------------------- properties of the loop

  /** Lines are handed in file order without gaps, never past the end of the file. */
  lemma {:induction false} LoopLines(cb: RowCallback, columns: seq<(string, string)>, limit: Option<int>,
                                     lines: seq<seq<string>>, i: nat, header: seq<string>, row: nat, st: ImportState)
    requires row >= 1 && i <= |lines|
    ensures var r := LoopFrom(cb, columns, limit, lines, i, header, row, st);
      |r.steps| <= |lines| - i && (forall k :: 0 <= k < |r.steps| ==> r.steps[k].line == i + k)
    decreases |lines| - i
  {
    if i < |lines| {
      var o := cb(st, MapRow(columns, header, lines[i]), row);
      LoopStepsData(cb, columns, limit, lines, i, header, row, st);
      if GoesOn(limit, o.result, row) {
        var rest := LoopFrom(cb, columns, limit, lines, i + 1, header, NextRow(o.result, row), o.state);
        LoopLines(cb, columns, limit, lines, i + 1, header, NextRow(o.result, row), o.state);
        var r := LoopFrom(cb, columns, limit, lines, i, header, row, st);
        forall k | 0 < k < |r.steps|
          ensures r.steps[k].line == i + k
        {
          assert r.steps[k] == rest.steps[k - 1];
        }
      }
    }
  }

  /** The row counter starts where it was and advances exactly on the lines whose callback
      did not raise. */
  lemma {:induction false} LoopRows(cb: RowCallback, columns: seq<(string, string)>, limit: Option<int>,
                                    lines: seq<seq<string>>, i: nat, header: seq<string>, row: nat, st: ImportState)
    requires row >= 1
    ensures var r := LoopFrom(cb, columns, limit, lines, i, header, row, st);
      (|r.steps| > 0 ==> r.steps[0].row == row) &&
      (forall k :: 0 < k < |r.steps| ==> r.steps[k].row == NextRow(r.steps[k - 1].result, r.steps[k - 1].row))
    decreases |lines| - i
  {
    if i < |lines| {
      var o := cb(st, MapRow(columns, header, lines[i]), row);
      LoopStepsData(cb, columns, limit, lines, i, header, row, st);
      if GoesOn(limit, o.result, row) {
        var rest := LoopFrom(cb, columns, limit, lines, i + 1, header, NextRow(o.result, row), o.state);
        LoopRows(cb, columns, limit, lines, i + 1, header, NextRow(o.result, row), o.state);
        var r := LoopFrom(cb, columns, limit, lines, i, header, row, st);
        forall k | 0 < k < |r.steps|
          ensures r.steps[k].row == NextRow(r.steps[k - 1].result, r.steps[k - 1].row)
        {
          assert r.steps[k] == rest.steps[k - 1];
          if k > 1 {
            assert r.steps[k - 1] == rest.steps[k - 2];
          }
        }
      }
    }
  }

  /** A run aborts exactly when its last step raised the uncaught Error. */
  lemma {:induction false} LoopAborts(cb: RowCallback, columns: seq<(string, string)>, limit: Option<int>,
                                      lines: seq<seq<string>>, i: nat, header: seq<string>, row: nat, st: ImportState)
    requires row >= 1
    ensures var r := LoopFrom(cb, columns, limit, lines, i, header, row, st);
      var n := |r.steps|;
      r.end == Aborted <==> n > 0 && r.steps[n - 1].result == Raised(CallOnNull)
    decreases |lines| - i
  {
    if i < |lines| {
      var o := cb(st, MapRow(columns, header, lines[i]), row);
      LoopStepsData(cb, columns, limit, lines, i, header, row, st);
      if GoesOn(limit, o.result, row) {
        var rest := LoopFrom(cb, columns, limit, lines, i + 1, header, NextRow(o.result, row), o.state);
        LoopAborts(cb, columns, limit, lines, i + 1, header, NextRow(o.result, row), o.state);
        var r := LoopFrom(cb, columns, limit, lines, i, header, row, st);
        if |rest.steps| > 0 {
          assert r.steps[|r.steps| - 1] == rest.steps[|rest.steps| - 1];
        }
      }
    }
  }

  /** Every step of a run but the last let the loop go on (neither the Error nor the
      limit). */
  lemma {:induction false} LoopGoesOnBeforeLast(cb: RowCallback, columns: seq<(string, string)>, limit: Option<int>,
                                                lines: seq<seq<string>>, i: nat, header: seq<string>, row: nat, st: ImportState)
    requires row >= 1
    ensures var r := LoopFrom(cb, columns, limit, lines, i, header, row, st);
      forall k :: 0 <= k < |r.steps| - 1 ==> GoesOn(limit, r.steps[k].result, r.steps[k].row)
    decreases |lines| - i
  {
    if i < |lines| {
      var o := cb(st, MapRow(columns, header, lines[i]), row);
      LoopStepsData(cb, columns, limit, lines, i, header, row, st);
      if GoesOn(limit, o.result, row) {
        var rest := LoopFrom(cb, columns, limit, lines, i + 1, header, NextRow(o.result, row), o.state);
        LoopGoesOnBeforeLast(cb, columns, limit, lines, i + 1, header, NextRow(o.result, row), o.state);
        var r := LoopFrom(cb, columns, limit, lines, i, header, row, st);
        forall k | 0 < k < |r.steps| - 1
          ensures GoesOn(limit, r.steps[k].result, r.steps[k].row)
        {
          assert r.steps[k] == rest.steps[k - 1];
        }
      }
    }
  }

  /** The loop stops before the lines run out only by the Error or at the limit, right after
      a row that did not raise. */
  lemma {:induction false} LoopStopsEarly(cb: RowCallback, columns: seq<(string, string)>, limit: Option<int>,
                                          lines: seq<seq<string>>, i: nat, header: seq<string>, row: nat, st: ImportState)
    requires row >= 1 && i <= |lines|
    ensures var r := LoopFrom(cb, columns, limit, lines, i, header, row, st);
      var n := |r.steps|;
      n < |lines| - i ==> n > 0 && !GoesOn(limit, r.steps[n - 1].result, r.steps[n - 1].row)
    decreases |lines| - i
  {
    if i < |lines| {
      var o := cb(st, MapRow(columns, header, lines[i]), row);
      LoopStepsData(cb, columns, limit, lines, i, header, row, st);
      if GoesOn(limit, o.result, row) {
        var rest := LoopFrom(cb, columns, limit, lines, i + 1, header, NextRow(o.result, row), o.state);
        LoopStopsEarly(cb, columns, limit, lines, i + 1, header, NextRow(o.result, row), o.state);
        var r := LoopFrom(cb, columns, limit, lines, i, header, row, st);
        if |r.steps| < |lines| - i {
          assert r.steps[|r.steps| - 1] == rest.steps[|rest.steps| - 1];
        }
      }
    }
  }

  /** A callback that never raises the uncaught Error never aborts the loop. */
  lemma {:induction false} NeverFatalCompletes(cb: RowCallback, columns: seq<(string, string)>, limit: Option<int>,
                                               lines: seq<seq<string>>, i: nat, header: seq<string>, row: nat, st: ImportState)
    requires NeverFatal(cb)
    ensures LoopFrom(cb, columns, limit, lines, i, header, row, st).end == Completed
    decreases |lines| - i
  {
    if i < |lines| {
      if row == 0 {
        if !LimitReached(limit, 0) {
          NeverFatalCompletes(cb, columns, limit, lines, i + 1, lines[i], 1, st);
        }
      } else {
        var o := cb(st, MapRow(columns, header, lines[i]), row);
        LoopFromData(cb, columns, limit, lines, i, header, row, st);
        if GoesOn(limit, o.result, row) {
          NeverFatalCompletes(cb, columns, limit, lines, i + 1, header, NextRow(o.result, row), o.state);
        }
      }
    }
  }

  /** The number of steps whose callback did not raise. */
  function NotRaised(steps: seq<Step>): nat
  {
    if steps == [] then 0
    else NotRaised(steps[..|steps| - 1]) + (if steps[|steps| - 1].result.Raised? then 0 else 1)
  }

  /** The number of flushes among entity manager calls. */
  function Flushes(calls: seq<EmCall>): nat
  {
    if calls == [] then 0
    else Flushes(calls[..|calls| - 1]) + (if calls[|calls| - 1] == Flush then 1 else 0)
  }

  lemma {:induction false} NotRaisedCons(step: Step, steps: seq<Step>)
    ensures NotRaised([step] + steps) == (if step.result.Raised? then 0 else 1) + NotRaised(steps)
    decreases |steps|
  {
    if steps != [] {
      var n := |steps|;
      assert ([step] + steps)[..n] == [step] + steps[..n - 1];
      NotRaisedCons(step, steps[..n - 1]);
    } else {
      assert ([step] + steps)[..0] == [];
    }
  }

  lemma {:induction false} FlushesAppend(a: seq<EmCall>, b: seq<EmCall>)
    ensures Flushes(a + b) == Flushes(a) + Flushes(b)
    decreases |b|
  {
    if b == [] {
      assert a + b == a;
    } else {
      assert (a + b)[..|a + b| - 1] == a + b[..|b| - 1];
      FlushesAppend(a, b[..|b| - 1]);
    }
  }

  lemma {:induction false} PersistsDoNotFlush(records: seq<Persisted>)
    ensures Flushes(Persists(records)) == 0
    decreases |records|
  {
    if records != [] {
      var n := |records|;
      assert Persists(records)[..n - 1] == Persists(records[..n - 1]);
      PersistsDoNotFlush(records[..n - 1]);
    }
  }

  /** The calls of one data row: its persists, then one flush unless it raised. */
  lemma RowFlushes(records: seq<Persisted>, result: RowResult)
    ensures Flushes(Persists(records) + (if result.Raised? then [] else [Flush])) == (if result.Raised? then 0 else 1)
  {
    PersistsDoNotFlush(records);
    FlushesAppend(Persists(records), if result.Raised? then [] else [Flush]);
    assert [Flush][..0] == [];
  }

  /** Every row whose callback did not raise is flushed once, and nothing else is. */
  lemma {:induction false} OneFlushPerRow(cb: RowCallback, columns: seq<(string, string)>, limit: Option<int>,
                                          lines: seq<seq<string>>, i: nat, header: seq<string>, row: nat, st: ImportState)
    requires row >= 1
    ensures var r := LoopFrom(cb, columns, limit, lines, i, header, row, st);
      Flushes(r.calls) == NotRaised(r.steps)
    decreases |lines| - i
  {
    if i < |lines| {
      var o := cb(st, MapRow(columns, header, lines[i]), row);
      var step := Step(i, row, o.result);
      var calls := Persists(o.persisted) + (if o.result.Raised? then [] else [Flush]);
      RowFlushes(o.persisted, o.result);
      if GoesOn(limit, o.result, row) {
        var rest := LoopFrom(cb, columns, limit, lines, i + 1, header, NextRow(o.result, row), o.state);
        OneFlushPerRow(cb, columns, limit, lines, i + 1, header, NextRow(o.result, row), o.state);
        NotRaisedCons(step, rest.steps);
        FlushesAppend(calls, rest.calls);
      } else {
        NotRaisedCons(step, []);
        assert [step] == [step] + [];
      }
    }
  }

  /** With a limit n, the rows that did not raise are at most n - row + 1. */
  lemma {:induction false} LimitBoundsRows(cb: RowCallback, columns: seq<(string, string)>, limit: Option<int>,
                                           lines: seq<seq<string>>, i: nat, header: seq<string>, row: nat, st: ImportState)
    requires limit.Some? && 1 <= row <= limit.value
    ensures NotRaised(LoopFrom(cb, columns, limit, lines, i, header, row, st).steps) <= limit.value - row + 1
    decreases |lines| - i
  {
    if i < |lines| {
      var o := cb(st, MapRow(columns, header, lines[i]), row);
      var step := Step(i, row, o.result);
      if GoesOn(limit, o.result, row) {
        var rest := LoopFrom(cb, columns, limit, lines, i + 1, header, NextRow(o.result, row), o.state);
        LimitBoundsRows(cb, columns, limit, lines, i + 1, header, NextRow(o.result, row), o.state);
        NotRaisedCons(step, rest.steps);
      } else {
        NotRaisedCons(step, []);
        assert [step] == [step] + [];
      }
    }
  }

  /** A callback that keeps handles valid keeps them valid over a whole run. */
  lemma {:induction false} LoopKeepsHandles(cb: RowCallback, columns: seq<(string, string)>, limit: Option<int>,
                                            lines: seq<seq<string>>, i: nat, header: seq<string>, row: nat, st: ImportState)
    requires KeepsHandles(cb) && HandlesValid(st)
    ensures HandlesValid(LoopFrom(cb, columns, limit, lines, i, header, row, st).state)
    decreases |lines| - i
  {
    if i < |lines| {
      if row == 0 {
        if !LimitReached(limit, 0) {
          LoopKeepsHandles(cb, columns, limit, lines, i + 1, lines[i], 1, st);
        }
      } else {
        var o := cb(st, MapRow(columns, header, lines[i]), row);
        if GoesOn(limit, o.result, row) {
          LoopKeepsHandles(cb, columns, limit, lines, i + 1, header, NextRow(o.result, row), o.state);
        }
      }
    }
  }

  /** A callback that appends one account per row appends one per line handed to it. */
  lemma {:induction false} LoopAppendsAccounts(cb: RowCallback, columns: seq<(string, string)>, limit: Option<int>,
                                               lines: seq<seq<string>>, i: nat, header: seq<string>, row: nat, st: ImportState)
    requires AppendsOneAccount(cb) && row >= 1
    ensures var r := LoopFrom(cb, columns, limit, lines, i, header, row, st);
      |r.state.accounts| == |st.accounts| + |r.steps| && r.state.accounts[..|st.accounts|] == st.accounts
    decreases |lines| - i
  {
    if i < |lines| {
      var o := cb(st, MapRow(columns, header, lines[i]), row);
      if GoesOn(limit, o.result, row) {
        var rest := LoopFrom(cb, columns, limit, lines, i + 1, header, NextRow(o.result, row), o.state);
        LoopAppendsAccounts(cb, columns, limit, lines, i + 1, header, NextRow(o.result, row), o.state);
        assert rest.state.accounts[..|st.accounts|] == rest.state.accounts[..|o.state.accounts|][..|st.accounts|];
      }
    }
  }

  // ---------------------------------------------------------------- one file

  /** A file's run: nothing for an empty file or a limit of at most 0 (the limit test runs
      on the header too), otherwise the loop from line 1 with line 0 as header and row 1. */
  lemma CsvLoopSkipsHeader(pass: Pass, s: Settings, env: Env, c: Caches, lines: seq<seq<string>>, st: ImportState)
    ensures CsvLoop(pass, s, env, c, lines, st) ==
              if |lines| == 0 || LimitReached(s.limit, 0) then Run(Completed, st, [], [])
              else LoopFrom(Callback(pass, s, env, c), s.columns, s.limit, lines, 1, lines[0], 1, st)
  {
  }

  /** The header is never handed to a callback: step k is data line k + 1; the first data
      row is row 1, and the counter advances past a line only when its callback did not
      raise. */
  lemma CsvLoopOrder(pass: Pass, s: Settings, env: Env, c: Caches, lines: seq<seq<string>>, st: ImportState)
    ensures var r := CsvLoop(pass, s, env, c, lines, st);
      (|lines| == 0 ==> r.steps == []) &&
      (|lines| > 0 ==> |r.steps| <= |lines| - 1) &&
      (forall k :: 0 <= k < |r.steps| ==> r.steps[k].line == k + 1) &&
      (|r.steps| > 0 ==> r.steps[0].row == 1) &&
      (forall k :: 0 < k < |r.steps| ==> r.steps[k].row == NextRow(r.steps[k - 1].result, r.steps[k - 1].row))
  {
    CsvLoopSkipsHeader(pass, s, env, c, lines, st);
    if |lines| > 0 && !LimitReached(s.limit, 0) {
      LoopLines(Callback(pass, s, env, c), s.columns, s.limit, lines, 1, lines[0], 1, st);
      LoopRows(Callback(pass, s, env, c), s.columns, s.limit, lines, 1, lines[0], 1, st);
    }
  }

  /** Without a limit a run that does not abort hands every data line to the callback. */
  lemma CsvLoopWithoutLimit(pass: Pass, s: Settings, env: Env, c: Caches, lines: seq<seq<string>>, st: ImportState)
    requires s.limit.None? && |lines| > 0
    ensures var r := CsvLoop(pass, s, env, c, lines, st);
      r.end == Completed ==> |r.steps| == |lines| - 1
  {
    CsvLoopSkipsHeader(pass, s, env, c, lines, st);
    var cb := Callback(pass, s, env, c);
    LoopLines(cb, s.columns, s.limit, lines, 1, lines[0], 1, st);
    LoopAborts(cb, s.columns, s.limit, lines, 1, lines[0], 1, st);
    LoopGoesOnBeforeLast(cb, s.columns, s.limit, lines, 1, lines[0], 1, st);
    LoopStopsEarly(cb, s.columns, s.limit, lines, 1, lines[0], 1, st);
  }

  /** With a limit n, at most n rows are processed without raising (none when n <= 0), and
      each of them, and nothing else, is flushed. */
  lemma CsvLoopLimitAndFlushes(pass: Pass, s: Settings, env: Env, c: Caches, lines: seq<seq<string>>, st: ImportState)
    ensures var r := CsvLoop(pass, s, env, c, lines, st);
      Flushes(r.calls) == NotRaised(r.steps) &&
      (s.limit.Some? ==> NotRaised(r.steps) <= if s.limit.value <= 0 then 0 else s.limit.value)
  {
    CsvLoopSkipsHeader(pass, s, env, c, lines, st);
    var cb := Callback(pass, s, env, c);
    if |lines| > 0 && !LimitReached(s.limit, 0) {
      OneFlushPerRow(cb, s.columns, s.limit, lines, 1, lines[0], 1, st);
      if s.limit.Some? {
        LimitBoundsRows(cb, s.columns, s.limit, lines, 1, lines[0], 1, st);
      }
    }
  }

  // ---------------------------------------------------------------- the account file

  /** The id-column value of every line mapped over the header. */
  function LineIds(s: Settings, header: seq<string>, lines: seq<seq<string>>): (ids: seq<Option<string>>)
    ensures |ids| == |lines|
    ensures forall m :: 0 <= m < |lines| ==> ids[m] == IdOf(s, MapRow(s.columns, header, lines[m]))
  {
    seq(|lines|, m requires 0 <= m < |lines| => IdOf(s, MapRow(s.columns, header, lines[m])))
  }

  /** The index after one more line: its id, if any, now names the handle. */
  function IndexStep(index: map<string, nat>, id: Option<string>, handle: nat): map<string, nat>
  {
    match id
    case Some(key) => index[key := handle]
    case None => index
  }

  /** The row-key index after the account pass over the ids from i on with handles from
      `base`, as a fold: each line enters its id under its handle. */
  function IndexFrom(ids: seq<Option<string>>, i: nat, base: nat, index: map<string, nat>): map<string, nat>
    decreases |ids| - i
  {
    if i >= |ids| then index
    else IndexFrom(ids, i + 1, base + 1, IndexStep(index, ids[i], base))
  }

  /** An id is indexed under the handle of the last line that carries it. */
  lemma {:induction false} IndexFromLastWins(ids: seq<Option<string>>, i: nat, base: nat, index: map<string, nat>, l: nat)
    requires i <= l < |ids| && ids[l].Some?
    requires forall m :: l < m < |ids| ==> ids[m] != ids[l]
    ensures var r := IndexFrom(ids, i, base, index);
      ids[l].value in r && r[ids[l].value] == base + (l - i)
    decreases |ids| - i
  {
    var next := IndexStep(index, ids[i], base);
    if i < l {
      IndexFromLastWins(ids, i + 1, base + 1, next, l);
    } else {
      IndexFromKeeps(ids, i + 1, base + 1, next, ids[l].value);
    }
  }

  /** An id no line from i on carries keeps its handle. */
  lemma {:induction false} IndexFromKeeps(ids: seq<Option<string>>, i: nat, base: nat, index: map<string, nat>, key: string)
    requires key in index
    requires forall m :: i <= m < |ids| ==> ids[m] != Some(key)
    ensures var r := IndexFrom(ids, i, base, index);
      key in r && r[key] == index[key]
    decreases |ids| - i
  {
    if i < |ids| {
      IndexFromKeeps(ids, i + 1, base + 1, IndexStep(index, ids[i], base), key);
    }
  }

  /** The index holds exactly the ids it held and the ids of the lines. */
  lemma {:induction false} IndexFromKeys(ids: seq<Option<string>>, i: nat, base: nat, index: map<string, nat>, key: string)
    ensures key in IndexFrom(ids, i, base, index) <==> key in index || exists m :: i <= m < |ids| && ids[m] == Some(key)
    decreases |ids| - i
  {
    if i < |ids| {
      var next := IndexStep(index, ids[i], base);
      IndexFromKeys(ids, i + 1, base + 1, next, key);
      if key in next && key !in index {
        assert ids[i] == Some(key);
      }
      if exists m :: i <= m < |ids| && ids[m] == Some(key) {
        var m :| i <= m < |ids| && ids[m] == Some(key);
        if m == i {
          assert key in next;
        }
      }
    }
  }

  /** Without a limit the account pass never stops early and builds the index fold. */
  lemma {:induction false} AccountPassIndexes(s: Settings, env: Env, c: Caches, lines: seq<seq<string>>, i: nat,
                                              header: seq<string>, row: nat, st: ImportState)
    requires s.limit.None? && row >= 1
    ensures var r := LoopFrom(Callback(AccountPass, s, env, c), s.columns, s.limit, lines, i, header, row, st);
      r.end == Completed && r.state.index == IndexFrom(LineIds(s, header, lines), i, |st.accounts|, st.index)
    decreases |lines| - i
  {
    if i < |lines| {
      var cb := Callback(AccountPass, s, env, c);
      var data := MapRow(s.columns, header, lines[i]);
      var o := AccountRow(s, env, c, st, data);
      assert cb(st, data, row) == o;
      assert GoesOn(s.limit, o.result, row);
      LoopStateData(cb, s.columns, s.limit, lines, i, header, row, st);
      AccountPassIndexes(s, env, c, lines, i + 1, header, NextRow(o.result, row), o.state);
      var ids := LineIds(s, header, lines);
      assert ids[i] == IdOf(s, data);
      assert o.state.index == IndexStep(st.index, ids[i], |st.accounts|) && |o.state.accounts| == |st.accounts| + 1;
      assert IndexFrom(ids, i, |st.accounts|, st.index) == IndexFrom(ids, i + 1, |st.accounts| + 1, o.state.index);
    }
  }

  /** Without a limit the parent pass from line i, with the counter equal to the line, relinks
      the account before each line, leaves the others and never aborts, provided there is an
      account for every line. */
  lemma {:induction false} ParentPassRelinks(s: Settings, env: Env, c: Caches, lines: seq<seq<string>>, i: nat,
                                             header: seq<string>, st: ImportState)
    requires s.limit.None? && 1 <= i && |lines| <= |st.accounts| + 1
    ensures var r := LoopFrom(Callback(ParentPass, s, env, c), s.columns, s.limit, lines, i, header, i, st);
      r.end == Completed && r.state.index == st.index && r.state.serial == st.serial &&
      |r.state.accounts| == |st.accounts| &&
      forall h :: 0 <= h < |st.accounts| ==>
        r.state.accounts[h] == if i <= h + 1 < |lines| then Relinked(st.accounts[h], st.index, MapRow(s.columns, header, lines[h + 1]))
                               else st.accounts[h]
    decreases |lines| - i
  {
    if i < |lines| {
      var cb := Callback(ParentPass, s, env, c);
      var data := MapRow(s.columns, header, lines[i]);
      var o := cb(st, data, i);
      ParentCallbackAt(s, env, c, st, data, i);
      LoopStateData(cb, s.columns, s.limit, lines, i, header, i, st);
      ParentPassRelinks(s, env, c, lines, i + 1, header, o.state);
      var rest := LoopFrom(cb, s.columns, s.limit, lines, i + 1, header, i + 1, o.state);
      var r := LoopFrom(cb, s.columns, s.limit, lines, i, header, i, st);
      assert r.state == rest.state && r.end == rest.end;
      forall h | 0 <= h < |st.accounts|
        ensures r.state.accounts[h] == if i <= h + 1 < |lines| then Relinked(st.accounts[h], st.index, MapRow(s.columns, header, lines[h + 1]))
                                       else st.accounts[h]
      {
        if h != i - 1 {
          assert o.state.accounts[h] == st.accounts[h];
        }
      }
    }
  }

  /** The parent callback at a row that has an account relinks just that account. */
  lemma ParentCallbackAt(s: Settings, env: Env, c: Caches, st: ImportState, data: Row, row: nat)
    requires 1 <= row <= |st.accounts|
    ensures Callback(ParentPass, s, env, c)(st, data, row) ==
              Outcome(Processed, st.(accounts := st.accounts[row - 1 := Relinked(st.accounts[row - 1], st.index, data)]), [])
  {
  }

  /** The account and contact passes always complete: only the parent pass can abort. */
  lemma CsvLoopNeverAborts(pass: Pass, s: Settings, env: Env, c: Caches, lines: seq<seq<string>>, st: ImportState)
    requires pass != ParentPass
    ensures CsvLoop(pass, s, env, c, lines, st).end == Completed
  {
    CallbackShapes(s, env, c);
    NeverFatalCompletes(Callback(pass, s, env, c), s.columns, s.limit, lines, 0, [], 0, st);
  }

  /** `processAccountFile` without a limit: the account pass appends one account per data
      line and indexes each id under the handle of the last line carrying it; the parent
      pass then links the account of every data line l to the account its `account_parent`
      names in that index, whether the parent's line comes before or after it. */
  lemma TwoPassLinksParents(s: Settings, env: Env, c: Caches, lines: seq<seq<string>>, st: ImportState)
    requires s.limit.None? && |lines| > 0 && st.accounts == []
    ensures var a := CsvLoop(AccountPass, s, env, c, lines, st);
      var p := CsvLoop(ParentPass, s, env, c, lines, a.state);
      a.end == Completed && |a.state.accounts| == |lines| - 1 &&
      a.state.index == IndexFrom(LineIds(s, lines[0], lines), 1, 0, st.index) &&
      p.end == Completed && p.state.index == a.state.index && |p.state.accounts| == |lines| - 1 &&
      forall l :: 1 <= l < |lines| ==>
        p.state.accounts[l - 1] == Relinked(a.state.accounts[l - 1], a.state.index, LineData(s, lines, l))
  {
    var cb := Callback(AccountPass, s, env, c);
    CsvLoopSkipsHeader(AccountPass, s, env, c, lines, st);
    CallbackShapes(s, env, c);
    LoopAppendsAccounts(cb, s.columns, s.limit, lines, 1, lines[0], 1, st);
    CsvLoopWithoutLimit(AccountPass, s, env, c, lines, st);
    AccountPassIndexes(s, env, c, lines, 1, lines[0], 1, st);
    var a := CsvLoop(AccountPass, s, env, c, lines, st);
    CsvLoopSkipsHeader(ParentPass, s, env, c, lines, a.state);
    ParentPassRelinks(s, env, c, lines, 1, lines[0], a.state);
  }
}
