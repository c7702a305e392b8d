/** The value-level rules of the contact/account CSV import (Import.php): the records it
    builds, the mapping of a CSV row through the column aliases, the "present" test, the
    alias lookups, the numbered-suffix series, the address decision, the folding of legacy
    bank data into notes, and the shape of a complete account or contact built from a row. */
module ImportRules {
  import opened Wrappers
  import opened PhpBuiltins

  /** One CSV row after header mapping: column name to cell text. */
  type Row = map<string, string>

  /** A pre-resolved type record (email type, phone type, ...), by its datastore id. */
  type TypeId = nat

  /** A country record of the datastore, by its id. */
  type CountryId = nat

  /** The Account::TYPE_* constants. */
  const TypeBasic: int := 0
  const TypeLead: int := 1
  const TypeCustomer: int := 2
  const TypeSupplier: int := 3

  /** The separator written `'\n'` in the source: single-quoted in PHP, so a backslash and an n. */
  const LiteralNewline: string := "\\n"

  /** Highest suffix of the numbered columns email1..email9, phone1..phone9, ... */
  const MaxSuffix: nat := 9

  /** The type records injected into every new value object of each kind. */
  datatype Defaults = Defaults(
    emailType: TypeId, phoneType: TypeId, phoneTypeIsdn: TypeId, phoneTypeMobile: TypeId,
    addressType: TypeId, urlType: TypeId, faxType: TypeId)

  datatype Email = Email(address: string, emailType: TypeId)
  datatype Phone = Phone(number: string, phoneType: TypeId)
  datatype Fax = Fax(number: string, faxType: TypeId)
  datatype Url = Url(url: string, urlType: TypeId)
  datatype Note = Note(text: string)

  datatype Address = Address(
    street: string, number: Option<string>, zip: Option<string>, city: string,
    country: CountryId, addressType: TypeId)

  /** The `public` attribute of a bank account: the literal false, or the raw cell text. */
  datatype PublicFlag = False | Raw(text: string)

  datatype BankAccount = BankAccount(
    iban: string, bic: Option<string>, bankName: Option<string>, publicFlag: PublicFlag)

  /** Where an instance came from: loaded from the datastore, or created during the run
      (numbered in creation order, which gives each new instance its own identity). */
  datatype Origin = Stored(id: nat) | Created(serial: nat)

  datatype Category = Category(name: string, origin: Origin)
  datatype Tag = Tag(name: string, origin: Origin)

  /** An account. `parent` is the handle (position in the importer's account list) of the
      parent account; handles stand for object identity. */
  datatype Account = Account(
    name: Option<string>, division: Option<string>, disabled: Option<string>,
    uid: Option<string>, registerNumber: Option<string>, accountType: Option<int>,
    category: Option<Category>, tags: seq<Tag>,
    emails: seq<Email>, phones: seq<Phone>, faxes: seq<Fax>, urls: seq<Url>, notes: seq<Note>,
    addresses: seq<Address>, bankAccounts: seq<BankAccount>, parent: Option<nat>)

  /** `new Account()`: nothing set. */
  const NewAccount: Account :=
    Account(None, None, None, None, None, None, None, [], [], [], [], [], [], [], [], None)

  /** A contact. `account` is the handle of the account it belongs to. */
  datatype Contact = Contact(
    firstName: string, lastName: string, title: Option<string>, position: Option<string>,
    formOfAddress: Option<string>, salutation: Option<string>, birthday: Option<string>,
    disabled: Option<string>, tags: seq<Tag>, account: Option<nat>,
    addresses: seq<Address>, emails: seq<Email>, phones: seq<Phone>, faxes: seq<Fax>,
    notes: seq<Note>)

  /** What the entity manager is asked to persist. A note is logged without its text, since
      the legacy bank rule persists a note before writing its text. */
  datatype Persisted =
    | EmailRecord(email: Email) | PhoneRecord(phone: Phone) | FaxRecord(fax: Fax)
    | UrlRecord(url: Url) | NoteRecord | AddressRecord(address: Address)
    | BankRecord(bank: BankAccount) | CategoryRecord(category: Category) | TagRecord(tag: Tag)
    | AccountRecord(handle: nat) | ContactRecord(contact: Contact)

  /** One call on the entity manager. */
  datatype EmCall = Persist(entity: Persisted) | Flush

  /** The importer's configuration: column aliases, id column, options, country and account
      type aliases, and the row limit. */
  datatype Settings = Settings(
    columns: seq<(string, string)>, ids: map<string, string>, options: map<string, bool>,
    countryAliases: seq<(string, string)>, accountTypes: seq<(int, string)>, limit: Option<int>)

  /** What the importer is given from outside: the default type records, the datastore's
      countries by code, the street/number split (a regular expression in the source), and
      which texts `new \DateTime(...)` accepts. */
  datatype Env = Env(
    defaults: Defaults, countries: map<string, CountryId>, splitStreet: string -> (string, string),
    parsesDate: string -> bool)

  const DefaultIdMappings: map<string, string> := map["account_id" := "account_id"]
  const DefaultOptions: map<string, bool> := map["importIds" := true, "streetNumberSplit" := false]
  const DefaultAccountTypeMappings: seq<(int, string)> :=
    [(TypeBasic, ""), (TypeLead, "lead"), (TypeCustomer, "customer"), (TypeSupplier, "supplier")]

  // ---------------------------------------------------------------- presence and row mapping

  /** `checkData`: the key exists and its text is not empty. */
  predicate Present(data: Row, key: string)
  {
    key in data && data[key] != ""
  }

  /** The value of an optional scalar column: set only when present. */
  function Opt(data: Row, key: string): (r: Option<string>)
    ensures r.Some? <==> Present(data, key)
    ensures r.Some? ==> r.value == data[key]
  {
    if Present(data, key) then Some(data[key]) else None
  }

  /** The name a header gets: the first alias key whose value is the header, when that key is
      truthy; otherwise the header itself. */
  function MapHeader(columns: seq<(string, string)>, header: string): (k: string)
    ensures (forall i :: 0 <= i < |columns| ==> columns[i].1 != header) ==> k == header
    ensures forall i :: FirstMatch(columns, header, i) ==>
              k == (if TruthyKey(columns[i].0) then columns[i].0 else header)
  {
    SearchOr(columns, header, TruthyKey, header)
  }

  /** The header of column `i`; a cell beyond the header row reads a null header, which PHP
      uses as the key "". */
  function HeaderAt(header: seq<string>, i: nat): string
  {
    if i < |header| then header[i] else ""
  }

  /** The name column i of a line gets. */
  function ColumnKey(columns: seq<(string, string)>, header: seq<string>, i: nat): string
  {
    MapHeader(columns, HeaderAt(header, i))
  }

  /** No column after column i of an n-column line gets the same name. */
  predicate LastWithName(columns: seq<(string, string)>, header: seq<string>, n: nat, i: nat)
  {
    i < n && forall j :: i < j < n ==> ColumnKey(columns, header, j) != ColumnKey(columns, header, i)
  }

  /** The (key, cell) assignments `mapRowToAssociativeArray` performs, in column order. */
  function ColumnPairs(columns: seq<(string, string)>, header: seq<string>, cells: seq<string>): (p: seq<(string, string)>)
    ensures |p| == |cells|
    ensures forall i :: 0 <= i < |cells| ==> p[i] == (ColumnKey(columns, header, i), cells[i])
  {
    seq(|cells|, i requires 0 <= i < |cells| => (ColumnKey(columns, header, i), cells[i]))
  }

  /** The associative row built from a CSV line. */
  function MapRow(columns: seq<(string, string)>, header: seq<string>, cells: seq<string>): Row
  {
    Assign(ColumnPairs(columns, header, cells))
  }

  /** Every column contributes its mapped name, and nothing else is a key; a column's cell is
      the value under its name unless a later column maps to the same name. */
  lemma MapRowContents(columns: seq<(string, string)>, header: seq<string>, cells: seq<string>)
    ensures forall k :: k in MapRow(columns, header, cells) <==>
              exists i :: 0 <= i < |cells| && ColumnKey(columns, header, i) == k
    ensures forall i: nat :: LastWithName(columns, header, |cells|, i) ==>
              ColumnKey(columns, header, i) in MapRow(columns, header, cells) &&
              MapRow(columns, header, cells)[ColumnKey(columns, header, i)] == cells[i]
  {
    var p := ColumnPairs(columns, header, cells);
    AssignContents(p);
    forall k
      ensures k in Assign(p) <==> exists i :: 0 <= i < |cells| && ColumnKey(columns, header, i) == k
    {
      if k in Assign(p) {
        var i :| 0 <= i < |p| && p[i].0 == k;
        assert ColumnKey(columns, header, i) == k;
      }
      if exists i :: 0 <= i < |cells| && ColumnKey(columns, header, i) == k {
        var i :| 0 <= i < |cells| && ColumnKey(columns, header, i) == k;
        assert p[i].0 == k;
      }
    }
    forall i: nat | LastWithName(columns, header, |cells|, i)
      ensures ColumnKey(columns, header, i) in Assign(p) && Assign(p)[ColumnKey(columns, header, i)] == cells[i]
    {
      assert forall j :: i < j < |p| ==> p[j].0 != p[i].0;
      assert p[i].0 == ColumnKey(columns, header, i);
    }
  }

  /** A header no alias names passes through unchanged, holding the cell of the last column
      with that header. */
  lemma UnmappedHeaderPassesThrough(columns: seq<(string, string)>, header: seq<string>, cells: seq<string>, i: nat)
    requires i < |cells| && i < |header|
    requires forall c :: 0 <= c < |columns| ==> columns[c].1 != header[i]
    requires forall j :: i < j < |cells| ==> ColumnKey(columns, header, j) != header[i]
    ensures header[i] in MapRow(columns, header, cells)
    ensures MapRow(columns, header, cells)[header[i]] == cells[i]
  {
    MapRowContents(columns, header, cells);
    assert ColumnKey(columns, header, i) == header[i];
    assert LastWithName(columns, header, |cells|, i);
  }

  /** `mapRowToAssociativeArray`: the foreach over the cells of one line. */
  method MapRowToAssociativeArray(columns: seq<(string, string)>, header: seq<string>, cells: seq<string>)
    returns (row: Row)
    ensures row == MapRow(columns, header, cells)
  {
    ghost var p := ColumnPairs(columns, header, cells);
    row := map[];
    var index := 0;
    while index < |cells|
      invariant 0 <= index <= |cells|
      invariant row == Assign(p[..index])
    {
      var key := ColumnKey(columns, header, index);
      assert p[..index + 1][..index] == p[..index];
      row := row[key := cells[index]];
      index := index + 1;
    }
    assert p[..|cells|] == p;
  }

  // ---------------------------------------------------------------- alias lookups

  /** `mapCountryCode`: the first alias key whose value is the code, when truthy; otherwise
      the upper-cased code. */
  function CountryCode(aliases: seq<(string, string)>, code: string): (r: string)
    ensures (forall i :: 0 <= i < |aliases| ==> aliases[i].1 != code) ==> r == Upper(code)
    ensures forall i :: FirstMatch(aliases, code, i) ==>
              r == (if TruthyKey(aliases[i].0) then aliases[i].0 else Upper(code))
  {
    SearchOr(aliases, code, TruthyKey, Upper(code))
  }

  /** `mapAccountType`: the first type key whose alias is the text, when non-zero; otherwise
      TYPE_BASIC. */
  function AccountType(types: seq<(int, string)>, text: string): (r: int)
    ensures (forall i :: 0 <= i < |types| ==> types[i].1 != text) ==> r == TypeBasic
    ensures forall i :: FirstMatch(types, text, i) ==>
              r == (if types[i].0 != 0 then types[i].0 else TypeBasic)
  {
    SearchOr(types, text, TruthyInt, TypeBasic)
  }

  /** With the default type table every alias resolves to its constant, and any other text
      (the empty alias of TYPE_BASIC included) falls back to TYPE_BASIC. */
  lemma DefaultAccountTypes(text: string)
    ensures AccountType(DefaultAccountTypeMappings, "lead") == TypeLead
    ensures AccountType(DefaultAccountTypeMappings, "customer") == TypeCustomer
    ensures AccountType(DefaultAccountTypeMappings, "supplier") == TypeSupplier
    ensures text !in {"lead", "customer", "supplier"} ==> AccountType(DefaultAccountTypeMappings, text) == TypeBasic
  {
    var t := DefaultAccountTypeMappings;
    assert t[1].1 == "lead" && t[0].1 != "lead";
    assert t[2].1 == "customer" && t[0].1 != "customer" && t[1].1 != "customer";
    assert t[3].1 == "supplier" && t[0].1 != "supplier" && t[1].1 != "supplier" && t[2].1 != "supplier";
    if text !in {"lead", "customer", "supplier"} {
      if text == "" {
        assert t[0].1 == text;
      } else {
        assert forall i :: 0 <= i < |t| ==> t[i].1 != text;
      }
    }
  }

  // ---------------------------------------------------------------- numbered-suffix columns

  /** The column name `prefix` followed by the digit i, as `'email' . $i`. */
  function Suffixed(prefix: string, i: nat): string
    requires 1 <= i <= MaxSuffix
  {
    prefix + [DigitChar(i)]
  }

  /** Values of prefix_i, prefix_(i+1), ... up to the first column that is not present. */
  function SeriesFrom(data: Row, prefix: string, i: nat): seq<string>
    requires 1 <= i <= MaxSuffix + 1
    decreases MaxSuffix + 1 - i
  {
    if i > MaxSuffix || !Present(data, Suffixed(prefix, i)) then []
    else [data[Suffixed(prefix, i)]] + SeriesFrom(data, prefix, i + 1)
  }

  /** The values a `for ($i ...)` suffix loop with `break` collects: prefix1 onwards. */
  function Series(data: Row, prefix: string): seq<string>
  {
    SeriesFrom(data, prefix, 1)
  }

  /** The run from i is at most as long as the suffixes left. */
  lemma {:induction false} SeriesFromLength(data: Row, prefix: string, i: nat)
    requires 1 <= i <= MaxSuffix + 1
    ensures |SeriesFrom(data, prefix, i)| <= MaxSuffix + 1 - i
    decreases MaxSuffix + 1 - i
  {
    if i <= MaxSuffix && Present(data, Suffixed(prefix, i)) {
      SeriesFromLength(data, prefix, i + 1);
    }
  }

  /** Value k of the run from i is the value of the present column prefix_(i+k). */
  lemma {:induction false} SeriesFromAt(data: Row, prefix: string, i: nat, k: nat)
    requires 1 <= i <= MaxSuffix + 1 && k < |SeriesFrom(data, prefix, i)|
    ensures i + k <= MaxSuffix && Present(data, Suffixed(prefix, i + k))
    ensures SeriesFrom(data, prefix, i)[k] == data[Suffixed(prefix, i + k)]
    decreases k
  {
    if k > 0 {
      SeriesFromAt(data, prefix, i + 1, k - 1);
      assert i + k == (i + 1) + (k - 1);
    }
  }

  /** The run from i ends at a gap, or at suffix 9. */
  lemma {:induction false} SeriesFromEndsAtGap(data: Row, prefix: string, i: nat)
    requires 1 <= i <= MaxSuffix + 1
    ensures i + |SeriesFrom(data, prefix, i)| <= MaxSuffix ==>
              !Present(data, Suffixed(prefix, i + |SeriesFrom(data, prefix, i)|))
    decreases MaxSuffix + 1 - i
  {
    if i <= MaxSuffix && Present(data, Suffixed(prefix, i)) {
      SeriesFromEndsAtGap(data, prefix, i + 1);
      assert |SeriesFrom(data, prefix, i)| == 1 + |SeriesFrom(data, prefix, i + 1)|;
    } else if i <= MaxSuffix {
      assert i + 0 == i;
    }
  }

  /** The series is exactly the longest run prefix1..prefixk of present columns, k <= 9:
      a gap ends it. */
  lemma SeriesIsLongestPresentRun(data: Row, prefix: string)
    ensures |Series(data, prefix)| <= MaxSuffix
    ensures forall j :: 1 <= j <= |Series(data, prefix)| ==>
              Present(data, Suffixed(prefix, j)) && Series(data, prefix)[j - 1] == data[Suffixed(prefix, j)]
    ensures |Series(data, prefix)| < MaxSuffix ==> !Present(data, Suffixed(prefix, |Series(data, prefix)| + 1))
  {
    SeriesFromLength(data, prefix, 1);
    SeriesFromEndsAtGap(data, prefix, 1);
    forall j | 1 <= j <= |Series(data, prefix)|
      ensures Present(data, Suffixed(prefix, j)) && Series(data, prefix)[j - 1] == data[Suffixed(prefix, j)]
    {
      SeriesFromAt(data, prefix, 1, j - 1);
      assert 1 + (j - 1) == j;
    }
  }

  /** The suffix loop of the source, with its `break` at the first gap. */
  method CollectSeries(data: Row, prefix: string) returns (values: seq<string>)
    ensures values == Series(data, prefix)
  {
    values := [];
    var i := 1;
    while i <= MaxSuffix
      invariant 1 <= i <= MaxSuffix + 1
      invariant values + SeriesFrom(data, prefix, i) == Series(data, prefix)
    {
      var key := Suffixed(prefix, i);
      if Present(data, key) {
        assert SeriesFrom(data, prefix, i) == [data[key]] + SeriesFrom(data, prefix, i + 1);
        ConcatAssociative(values, [data[key]], SeriesFrom(data, prefix, i + 1));
        values := values + [data[key]];
      } else {
        break;
      }
      i := i + 1;
    }
  }

  /** Values of every present prefix_j with 1 <= j <= n, gaps skipped, in suffix order. */
  function PresentUpTo(data: Row, prefix: string, n: nat): seq<string>
    requires n <= MaxSuffix
  {
    if n == 0 then []
    else PresentUpTo(data, prefix, n - 1) + (if Present(data, Suffixed(prefix, n)) then [data[Suffixed(prefix, n)]] else [])
  }

  /** Unlike a series, the gap-skipping scan keeps the value of every present column, and
      holds nothing else. */
  lemma {:induction false} PresentUpToKeepsEveryPresent(data: Row, prefix: string, n: nat)
    requires n <= MaxSuffix
    ensures forall j :: 1 <= j <= n && Present(data, Suffixed(prefix, j)) ==>
              data[Suffixed(prefix, j)] in PresentUpTo(data, prefix, n)
    ensures forall v :: v in PresentUpTo(data, prefix, n) ==>
              exists j :: 1 <= j <= n && Present(data, Suffixed(prefix, j)) && data[Suffixed(prefix, j)] == v
  {
    if n > 0 {
      PresentUpToKeepsEveryPresent(data, prefix, n - 1);
    }
  }

  /** The suffixes 1..n whose column is present, in increasing order. */
  function PresentSuffixes(data: Row, prefix: string, n: nat): seq<nat>
    requires n <= MaxSuffix
  {
    if n == 0 then []
    else PresentSuffixes(data, prefix, n - 1) + (if Present(data, Suffixed(prefix, n)) then [n] else [])
  }

  /** The gap-skipping scan in order: its k-th value is the column of the k-th present
      suffix, the present suffixes rise strictly, and every present column up to n is
      among them. */
  lemma {:induction false} PresentUpToInOrder(data: Row, prefix: string, n: nat)
    requires n <= MaxSuffix
    ensures var js := PresentSuffixes(data, prefix, n);
      var vs := PresentUpTo(data, prefix, n);
      |vs| == |js| &&
      (forall k :: 0 <= k < |js| ==>
         1 <= js[k] <= n && Present(data, Suffixed(prefix, js[k])) && vs[k] == data[Suffixed(prefix, js[k])]) &&
      (forall k, l :: 0 <= k < l < |js| ==> js[k] < js[l]) &&
      (forall j :: 1 <= j <= n && Present(data, Suffixed(prefix, j)) ==> j in js)
  {
    if n > 0 {
      PresentUpToInOrder(data, prefix, n - 1);
      var js0 := PresentSuffixes(data, prefix, n - 1);
      var vs0 := PresentUpTo(data, prefix, n - 1);
      var key := Suffixed(prefix, n);
      if Present(data, key) {
        assert PresentSuffixes(data, prefix, n) == js0 + [n];
        assert PresentUpTo(data, prefix, n) == vs0 + [data[key]];
      } else {
        assert PresentSuffixes(data, prefix, n) == js0;
        assert PresentUpTo(data, prefix, n) == vs0;
      }
    }
  }

  /** The note loop of `createAccount`, whose `break` is commented out. */
  method CollectPresent(data: Row, prefix: string) returns (values: seq<string>)
    ensures values == PresentUpTo(data, prefix, MaxSuffix)
  {
    values := [];
    var i := 1;
    while i <= MaxSuffix
      invariant 1 <= i <= MaxSuffix + 1
      invariant values == PresentUpTo(data, prefix, i - 1)
    {
      var key := Suffixed(prefix, i);
      if Present(data, key) {
        values := values + [data[key]];
      } else {
        assert values + [] == values;
      }
      i := i + 1;
    }
  }

  /** The one note of an account: every present note1..note9 joined by the literal '\n',
      or no note at all. */
  function AccountNotes(data: Row): (notes: seq<Note>)
  {
    var values := PresentUpTo(data, "note", MaxSuffix);
    if |values| > 0 then [Note(Implode(LiteralNewline, values))] else []
  }

  lemma AccountNoteKeepsGaps(data: Row)
    ensures |AccountNotes(data)| <= 1
    ensures AccountNotes(data) == [] <==> forall j :: 1 <= j <= MaxSuffix ==> !Present(data, Suffixed("note", j))
  {
    PresentUpToKeepsEveryPresent(data, "note", MaxSuffix);
    var values := PresentUpTo(data, "note", MaxSuffix);
    if values != [] {
      assert values[0] in values;
    }
  }

  /** The values of the columns prefix_j for the suffixes j of `js`, in that order. */
  function ColumnValues(data: Row, prefix: string, js: seq<nat>): (vs: seq<string>)
    requires forall k :: 0 <= k < |js| ==> 1 <= js[k] <= MaxSuffix && Present(data, Suffixed(prefix, js[k]))
    ensures |vs| == |js|
    ensures forall k :: 0 <= k < |js| ==> Present(data, Suffixed(prefix, js[k])) && vs[k] == data[Suffixed(prefix, js[k])]
  {
    if js == [] then []
    else
      assert 0 < |js| && Present(data, Suffixed(prefix, js[0]));
      [data[Suffixed(prefix, js[0])]] + ColumnValues(data, prefix, js[1..])
  }

  /** The text of that one note, by position: `js` lists every present suffix of
      note1..note9 in rising order, and the note joins their values in that order with the
      literal '\n'; with no such suffix there is no note. */
  lemma AccountNoteText(data: Row)
    ensures var js := PresentSuffixes(data, "note", MaxSuffix);
      (forall k :: 0 <= k < |js| ==> 1 <= js[k] <= MaxSuffix && Present(data, Suffixed("note", js[k]))) &&
      (forall k, l :: 0 <= k < l < |js| ==> js[k] < js[l]) &&
      (forall j :: 1 <= j <= MaxSuffix && Present(data, Suffixed("note", j)) ==> j in js) &&
      AccountNotes(data) == (if js == [] then [] else [Note(Implode(LiteralNewline, ColumnValues(data, "note", js)))])
  {
    PresentUpToInOrder(data, "note", MaxSuffix);
    var js := PresentSuffixes(data, "note", MaxSuffix);
    var vs := PresentUpTo(data, "note", MaxSuffix);
    assert vs == ColumnValues(data, "note", js);
  }

  function EmailsOf(values: seq<string>, t: TypeId): seq<Email>
  {
    seq(|values|, i requires 0 <= i < |values| => Email(values[i], t))
  }

  function PhonesOf(values: seq<string>, t: TypeId): seq<Phone>
  {
    seq(|values|, i requires 0 <= i < |values| => Phone(values[i], t))
  }

  function FaxesOf(values: seq<string>, t: TypeId): seq<Fax>
  {
    seq(|values|, i requires 0 <= i < |values| => Fax(values[i], t))
  }

  function UrlsOf(values: seq<string>, t: TypeId): seq<Url>
  {
    seq(|values|, i requires 0 <= i < |values| => Url(values[i], t))
  }

  function NotesOf(values: seq<string>): seq<Note>
  {
    seq(|values|, i requires 0 <= i < |values| => Note(values[i]))
  }

  /** The persist calls for a list of records, in order. */
  function Persists(records: seq<Persisted>): (calls: seq<EmCall>)
    ensures |calls| == |records|
    ensures forall i :: 0 <= i < |records| ==> calls[i] == Persist(records[i])
  {
    seq(|records|, i requires 0 <= i < |records| => Persist(records[i]))
  }

  /** Persisting one more record appends one call. */
  lemma PersistsSnoc(records: seq<Persisted>, r: Persisted)
    ensures Persists(records + [r]) == Persists(records) + [Persist(r)]
  {
  }

  /** Persisting two lists one after the other is persisting their concatenation. */
  lemma PersistsAppend(a: seq<Persisted>, b: seq<Persisted>)
    ensures Persists(a + b) == Persists(a) + Persists(b)
  {
  }

  function EmailRecords(es: seq<Email>): seq<Persisted>
  {
    seq(|es|, i requires 0 <= i < |es| => EmailRecord(es[i]))
  }

  function PhoneRecords(ps: seq<Phone>): seq<Persisted>
  {
    seq(|ps|, i requires 0 <= i < |ps| => PhoneRecord(ps[i]))
  }

  function FaxRecords(fs: seq<Fax>): seq<Persisted>
  {
    seq(|fs|, i requires 0 <= i < |fs| => FaxRecord(fs[i]))
  }

  function UrlRecords(us: seq<Url>): seq<Persisted>
  {
    seq(|us|, i requires 0 <= i < |us| => UrlRecord(us[i]))
  }

  function NoteRecords(ns: seq<Note>): seq<Persisted>
  {
    seq(|ns|, i requires 0 <= i < |ns| => NoteRecord)
  }

  // ---------------------------------------------------------------- address

  /** What `addAddress` does with a row: attach an address, attach nothing, or raise
      EntityNotFoundException for a country code the datastore does not know. */
  datatype AddressDecision = Attach(address: Address) | NoAddress | CountryNotFound(code: string)

  /** Whether the street is split into street and number (a missing option reads as null). */
  predicate SplitStreet(options: map<string, bool>)
  {
    "streetNumberSplit" in options && options["streetNumberSplit"]
  }

  function AddressFor(data: Row, s: Settings, env: Env): (d: AddressDecision)
    ensures d.CountryNotFound? <==>
              Present(data, "country") && CountryCode(s.countryAliases, data["country"]) !in env.countries
    ensures d.Attach? <==>
              Present(data, "street") && Present(data, "city") && Present(data, "country") &&
              CountryCode(s.countryAliases, data["country"]) in env.countries
    ensures d.CountryNotFound? ==> d.code == data["country"]
    ensures d.Attach? ==>
              d.address.city == data["city"] && d.address.zip == Opt(data, "zip") &&
              d.address.country == env.countries[CountryCode(s.countryAliases, data["country"])] &&
              d.address.addressType == env.defaults.addressType &&
              d.address.street == (if SplitStreet(s.options) then env.splitStreet(data["street"]).0 else data["street"]) &&
              d.address.number == (if SplitStreet(s.options) then Some(env.splitStreet(data["street"]).1) else Opt(data, "number"))
  {
    if Present(data, "country") && CountryCode(s.countryAliases, data["country"]) !in env.countries then
      CountryNotFound(data["country"])
    else if Present(data, "street") && Present(data, "city") && Present(data, "country") then
      var split := SplitStreet(s.options);
      var street := if split then env.splitStreet(data["street"]).0 else data["street"];
      var number := if split then Some(env.splitStreet(data["street"]).1) else Opt(data, "number");
      Attach(Address(street, number, Opt(data, "zip"), data["city"],
                     env.countries[CountryCode(s.countryAliases, data["country"])], env.defaults.addressType))
    else
      NoAddress
  }

  /** The postal code never decides whether an address is attached. */
  lemma ZipDoesNotDecide(data: Row, s: Settings, env: Env, zip: string)
    ensures AddressFor(data["zip" := zip], s, env).Attach? == AddressFor(data, s, env).Attach?
    ensures AddressFor(data - {"zip"}, s, env).Attach? == AddressFor(data, s, env).Attach?
  {
    var with := data["zip" := zip];
    var without := data - {"zip"};
    assert forall k :: k != "zip" ==> (Present(with, k) <==> Present(data, k)) && (Present(without, k) <==> Present(data, k));
    assert "street" != "zip" && "city" != "zip" && "country" != "zip";
  }

  // ---------------------------------------------------------------- bank data

  /** The bank account a present iban_i adds: bic and bank name when present, public false
      unless bank_public_i is present. */
  function IbanAccount(data: Row, i: nat): BankAccount
    requires 1 <= i <= MaxSuffix && Present(data, Suffixed("iban", i))
  {
    BankAccount(data[Suffixed("iban", i)], Opt(data, Suffixed("bic", i)), Opt(data, Suffixed("bank", i)),
                if Present(data, Suffixed("bank_public", i)) then Raw(data[Suffixed("bank_public", i)]) else False)
  }

  /** The text a present blz_i contributes to the note. */
  function OldBankText(data: Row, i: nat): string
    requires 1 <= i <= MaxSuffix && Present(data, Suffixed("blz", i))
  {
    "Old Bank Account: " + "BLZ: " + data[Suffixed("blz", i)]
    + (if Present(data, Suffixed("accountNumber", i)) then "; Account-Number: " + data[Suffixed("accountNumber", i)] else "")
    + (if Present(data, Suffixed("bank", i)) then "; Bank-Name: " + data[Suffixed("bank", i)] else "")
  }

  /** The notes and bank accounts of an entity while `addBankAccounts` runs, with what it
      has persisted so far. */
  datatype BankState = BankState(notes: seq<Note>, banks: seq<BankAccount>, persisted: seq<Persisted>)

  /** The iban half of iteration i of `addBankAccounts`. */
  function IbanStep(data: Row, i: nat, st: BankState): BankState
    requires 1 <= i <= MaxSuffix
  {
    if Present(data, Suffixed("iban", i)) then
      var b := IbanAccount(data, i);
      st.(banks := st.banks + [b], persisted := st.persisted + [BankRecord(b)])
    else st
  }

  /** The blz half of iteration i: append to the first note, or create and persist one. */
  function BlzStep(data: Row, i: nat, st: BankState): BankState
    requires 1 <= i <= MaxSuffix
  {
    if !Present(data, Suffixed("blz", i)) then st
    else if |st.notes| > 0 then
      st.(notes := [Note(st.notes[0].text + (LiteralNewline + OldBankText(data, i)))] + st.notes[1..])
    else
      st.(notes := [Note(OldBankText(data, i))], persisted := st.persisted + [NoteRecord])
  }

  /** Iteration i of `addBankAccounts`. */
  function BankStep(data: Row, i: nat, st: BankState): BankState
    requires 1 <= i <= MaxSuffix
  {
    BlzStep(data, i, IbanStep(data, i, st))
  }

  /** Iterations i..9 of `addBankAccounts`. */
  function BankFrom(data: Row, i: nat, st: BankState): BankState
    requires 1 <= i <= MaxSuffix + 1
    decreases MaxSuffix + 1 - i
  {
    if i > MaxSuffix then st else BankFrom(data, i + 1, BankStep(data, i, st))
  }

  /** The bank accounts of the present iban_j, j >= i, gaps skipped. */
  function IbansFrom(data: Row, i: nat): seq<BankAccount>
    requires 1 <= i <= MaxSuffix + 1
    decreases MaxSuffix + 1 - i
  {
    if i > MaxSuffix then []
    else (if Present(data, Suffixed("iban", i)) then [IbanAccount(data, i)] else []) + IbansFrom(data, i + 1)
  }

  /** '\n' + the legacy text of every present blz_j, j >= i, gaps skipped. */
  function BlzTextFrom(data: Row, i: nat): string
    requires 1 <= i <= MaxSuffix + 1
    decreases MaxSuffix + 1 - i
  {
    if i > MaxSuffix then ""
    else BlzPiece(data, i) + BlzTextFrom(data, i + 1)
  }

  /** '\n' + the legacy text of blz_i when it is present, else nothing. */
  function BlzPiece(data: Row, i: nat): string
    requires 1 <= i <= MaxSuffix
  {
    if Present(data, Suffixed("blz", i)) then LiteralNewline + OldBankText(data, i) else ""
  }

  /** One iteration of the bank loop in closed form. */
  lemma BankStepShape(data: Row, i: nat, st: BankState)
    requires 1 <= i <= MaxSuffix
    ensures BankStep(data, i, st).banks
              == st.banks + (if Present(data, Suffixed("iban", i)) then [IbanAccount(data, i)] else [])
    ensures |st.notes| > 0 ==> BankStep(data, i, st).notes == [Note(st.notes[0].text + BlzPiece(data, i))] + st.notes[1..]
    ensures |st.notes| == 0 && !Present(data, Suffixed("blz", i)) ==> BankStep(data, i, st).notes == []
    ensures |st.notes| == 0 && Present(data, Suffixed("blz", i)) ==> BankStep(data, i, st).notes == [Note(OldBankText(data, i))]
  {
    if |st.notes| > 0 && !Present(data, Suffixed("blz", i)) {
      assert st.notes[0].text + "" == st.notes[0].text;
      assert [Note(st.notes[0].text)] + st.notes[1..] == st.notes;
    }
  }

  /** The bank loop appends the iban accounts in suffix order, gaps skipped. */
  lemma {:induction false} BankFromBanks(data: Row, i: nat, st: BankState)
    requires 1 <= i <= MaxSuffix + 1
    ensures BankFrom(data, i, st).banks == st.banks + IbansFrom(data, i)
    decreases MaxSuffix + 1 - i
  {
    if i <= MaxSuffix {
      BankStepShape(data, i, st);
      BankFromBanks(data, i + 1, BankStep(data, i, st));
    }
  }

  /** When there is a note, the bank loop appends every legacy text to the first note and
      touches no other note. */
  lemma {:induction false} BankFromFirstNote(data: Row, i: nat, st: BankState)
    requires 1 <= i <= MaxSuffix + 1 && |st.notes| > 0
    ensures BankFrom(data, i, st).notes == [Note(st.notes[0].text + BlzTextFrom(data, i))] + st.notes[1..]
    decreases MaxSuffix + 1 - i
  {
    if i <= MaxSuffix {
      var next := BankStep(data, i, st);
      BankStepShape(data, i, st);
      BankFromFirstNote(data, i + 1, next);
      var first := st.notes[0].text;
      var p := BlzPiece(data, i);
      var rest := BlzTextFrom(data, i + 1);
      ConsParts(Note(first + p), st.notes[1..]);
      ConcatAssociative(first, p, rest);
      assert BankFrom(data, i, st) == BankFrom(data, i + 1, next);
      assert BlzTextFrom(data, i) == p + rest;
    } else {
      assert st.notes[0].text + "" == st.notes[0].text;
      assert [Note(st.notes[0].text)] + st.notes[1..] == st.notes;
    }
  }

  /** When there is no note, the first legacy text starts one (without its leading '\n')
      and the later ones are appended to it; with no legacy text there stays no note. */
  lemma {:induction false} BankFromNoNote(data: Row, i: nat, st: BankState)
    requires 1 <= i <= MaxSuffix + 1 && |st.notes| == 0
    ensures BlzTextFrom(data, i) == "" ==> BankFrom(data, i, st).notes == []
    ensures BlzTextFrom(data, i) != "" ==>
              |BlzTextFrom(data, i)| >= |LiteralNewline| &&
              BankFrom(data, i, st).notes == [Note(BlzTextFrom(data, i)[|LiteralNewline|..])]
    decreases MaxSuffix + 1 - i
  {
    if i <= MaxSuffix {
      if Present(data, Suffixed("blz", i)) {
        BankFromNewNote(data, i, st);
      } else {
        var next := BankStep(data, i, st);
        BankStepShape(data, i, st);
        BankFromNoNote(data, i + 1, next);
        assert BlzPiece(data, i) == "";
        assert BlzTextFrom(data, i) == BlzTextFrom(data, i + 1);
        assert BankFrom(data, i, st) == BankFrom(data, i + 1, next);
      }
    }
  }

  /** The first present blz_i on an entity without a note starts the note with its legacy
      text, and the later ones are appended to it. */
  lemma BankFromNewNote(data: Row, i: nat, st: BankState)
    requires 1 <= i <= MaxSuffix && |st.notes| == 0 && Present(data, Suffixed("blz", i))
    ensures BlzTextFrom(data, i) != "" && |BlzTextFrom(data, i)| >= |LiteralNewline|
    ensures BankFrom(data, i, st).notes == [Note(BlzTextFrom(data, i)[|LiteralNewline|..])]
  {
    var next := BankStep(data, i, st);
    BankStepShape(data, i, st);
    var t := OldBankText(data, i);
    var rest := BlzTextFrom(data, i + 1);
    assert next.notes == [Note(t)];
    BankFromFirstNote(data, i + 1, next);
    assert next.notes[1..] == [];
    assert BankFrom(data, i, st) == BankFrom(data, i + 1, next);
    assert BankFrom(data, i, st).notes == [Note(t + rest)];
    assert BlzPiece(data, i) == LiteralNewline + t;
    assert BlzTextFrom(data, i) == BlzPiece(data, i) + rest;
    ConcatAssociative(LiteralNewline, t, rest);
    DropPrefix(LiteralNewline, t + rest);
  }

  /** The head and the tail of a sequence built from them. */
  lemma ConsParts<T>(x: T, s: seq<T>)
    ensures |[x] + s| > 0 && ([x] + s)[0] == x && ([x] + s)[1..] == s
  {
  }

  /** Dropping the first part of a concatenation leaves the second. */
  lemma DropPrefix(a: string, b: string)
    ensures (a + b)[|a|..] == b
  {
  }

  /** No legacy text is contributed exactly when no blz_i is present. */
  lemma {:induction false} BlzTextEmptyIff(data: Row, i: nat)
    requires 1 <= i <= MaxSuffix + 1
    ensures BlzTextFrom(data, i) == "" <==> forall j :: i <= j <= MaxSuffix ==> !Present(data, Suffixed("blz", j))
    decreases MaxSuffix + 1 - i
  {
    if i <= MaxSuffix {
      BlzTextEmptyIff(data, i + 1);
    }
  }

  // ---------------------------------------------------------------- caches

  /** The (name, instance) assignments of `loadAccountCategories` / `loadTags`. */
  function Keyed<T>(s: seq<T>, key: T -> string): (p: seq<(string, T)>)
    ensures |p| == |s|
    ensures forall i :: 0 <= i < |s| ==> p[i] == (key(s[i]), s[i])
  {
    seq(|s|, i requires 0 <= i < |s| => (key(s[i]), s[i]))
  }

  function CategoryName(c: Category): string { c.name }
  function TagName(t: Tag): string { t.name }

  /** The cache a load builds from the datastore's records: one entry per name, holding the
      last record with that name. */
  lemma CacheFromStore<T>(s: seq<T>, key: T -> string)
    ensures forall k :: k in Assign(Keyed(s, key)) <==> exists i :: 0 <= i < |s| && key(s[i]) == k
    ensures forall i :: 0 <= i < |s| && (forall j :: i < j < |s| ==> key(s[j]) != key(s[i])) ==>
              Assign(Keyed(s, key))[key(s[i])] == s[i]
  {
    var p := Keyed(s, key);
    AssignContents(p);
    forall k | k in Assign(p)
      ensures exists i :: 0 <= i < |s| && key(s[i]) == k
    {
      var i :| 0 <= i < |p| && p[i].0 == k;
      assert key(s[i]) == k;
    }
    forall i | 0 <= i < |s| && (forall j :: i < j < |s| ==> key(s[j]) != key(s[i]))
      ensures Assign(p)[key(s[i])] == s[i]
    {
      assert forall j :: i < j < |p| ==> p[j].0 != p[i].0;
    }
  }

  /** `addCategory`'s choice: the cached instance, or a new one numbered `serial`. */
  function PickCategory(cache: map<string, Category>, name: string, serial: nat): (c: Category)
    ensures c.name == name || name in cache
    ensures name in cache ==> c == cache[name]
    ensures name !in cache ==> c.origin == Created(serial)
  {
    if name in cache then cache[name] else Category(name, Created(serial))
  }

  /** `addTag`'s choice: the cached instance, or a new one numbered `serial`. */
  function PickTag(cache: map<string, Tag>, name: string, serial: nat): (t: Tag)
    ensures t.name == name || name in cache
    ensures name in cache ==> t == cache[name]
    ensures name !in cache ==> t.origin == Created(serial)
  {
    if name in cache then cache[name] else Tag(name, Created(serial))
  }

  /** The caches are never written while rows are imported, so the same new name seen on two
      rows gives two distinct new instances: the de-duplication only covers records that
      were in the datastore when the importer was built. */
  lemma NewNameTwiceGivesTwoInstances(cache: map<string, Category>, name: string, serial: nat)
    requires name !in cache
    ensures PickCategory(cache, name, serial) != PickCategory(cache, name, serial + 1)
  {
  }

  // ---------------------------------------------------------------- whole rows

  /** The account instance a row builds before its address: the head (name, scalars,
      type, category, tag), then the numbered series and the joined note. */
  function AccountFields(data: Row, s: Settings, env: Env, categories: map<string, Category>, tags: map<string, Tag>, serial: nat): Account
    requires Present(data, "account_name")
  {
    WithSeries(data, env.defaults, AccountHead(data, s, categories, tags, serial))
  }

  /** The name, the optional scalars, the type, the category and the tag of a row. */
  function AccountHead(data: Row, s: Settings, categories: map<string, Category>, tags: map<string, Tag>, serial: nat): Account
    requires Present(data, "account_name")
  {
    var category := if Present(data, "account_category") then Some(PickCategory(categories, data["account_category"], serial)) else None;
    var serial1 := CategorySerial(data, categories, serial);
    NewAccount.(
      name := Some(data["account_name"]),
      division := Opt(data, "account_division"),
      disabled := Opt(data, "account_disabled"),
      uid := Opt(data, "account_uid"),
      registerNumber := Opt(data, "account_registerNumber"),
      accountType := if Present(data, "account_type") then Some(AccountType(s.accountTypes, data["account_type"])) else None,
      category := category,
      tags := if Present(data, "account_tag") then [PickTag(tags, data["account_tag"], serial1)] else [])
  }

  /** An account with the emails, phones (isdn last), faxes and urls of a row's series and
      its joined note. */
  function WithSeries(data: Row, d: Defaults, a: Account): Account
  {
    a.(emails := EmailsOf(Series(data, "email"), d.emailType),
       phones := PhonesOf(Series(data, "phone"), d.phoneType)
                 + (if Present(data, "phone_isdn") then [Phone(data["phone_isdn"], d.phoneTypeIsdn)] else []),
       faxes := FaxesOf(Series(data, "fax"), d.faxType),
       urls := UrlsOf(Series(data, "url"), d.urlType),
       notes := AccountNotes(data))
  }

  /** The instance counter after the category of a row. */
  function CategorySerial(data: Row, categories: map<string, Category>, serial: nat): nat
  {
    if Present(data, "account_category") && data["account_category"] !in categories then serial + 1 else serial
  }

  /** The instance counter after the tag of a row. */
  function TagSerial(data: Row, column: string, tags: map<string, Tag>, serial: nat): nat
  {
    if Present(data, column) && data[column] !in tags then serial + 1 else serial
  }

  /** The account a row without errors builds: the fields, then the address, then the bank
      loop applied to the notes so far. */
  function AccountFor(data: Row, s: Settings, env: Env, categories: map<string, Category>, tags: map<string, Tag>, serial: nat): Account
    requires Present(data, "account_name")
    requires !AddressFor(data, s, env).CountryNotFound?
  {
    var a := AccountFields(data, s, env, categories, tags, serial);
    var bank := BankFrom(data, 1, BankState(a.notes, [], []));
    Finished(a, AddressFor(data, s, env), bank.notes, bank.banks)
  }

  /** An account with the address a decision attaches and the notes and bank accounts of a
      finished bank loop. */
  function Finished(a: Account, address: AddressDecision, notes: seq<Note>, banks: seq<BankAccount>): Account
  {
    a.(addresses := if address.Attach? then [address.address] else [], notes := notes, bankAccounts := banks)
  }

  /** The records persisted after an account's fields: the attached address, the bank
      loop's records, then the account at `handle`. */
  function CompletionRecords(address: AddressDecision, bank: BankState, handle: nat): seq<Persisted>
  {
    AddressRecords(address) + (bank.persisted + [AccountRecord(handle)])
  }

  /** The record of the address a decision attaches. */
  function AddressRecords(address: AddressDecision): seq<Persisted>
  {
    if address.Attach? then [AddressRecord(address.address)] else []
  }

  /** The address and the bank loop change only the addresses, notes and bank accounts of
      the fields a row sets. */
  lemma AccountForKeepsFields(data: Row, s: Settings, env: Env, categories: map<string, Category>, tags: map<string, Tag>, serial: nat)
    requires Present(data, "account_name")
    requires !AddressFor(data, s, env).CountryNotFound?
    ensures var a := AccountFor(data, s, env, categories, tags, serial);
      var f := AccountFields(data, s, env, categories, tags, serial);
      a == f.(addresses := a.addresses, notes := a.notes, bankAccounts := a.bankAccounts)
  {
  }

  /** The columns prefix1..prefixn are present and, short of suffix 9, prefix(n+1) is not:
      n is the length of the gapless present run from suffix 1. */
  predicate IsRun(data: Row, prefix: string, n: nat)
  {
    n <= MaxSuffix &&
    (forall j :: 1 <= j <= n ==> Present(data, Suffixed(prefix, j))) &&
    (n < MaxSuffix ==> !Present(data, Suffixed(prefix, n + 1)))
  }

  /** A series turned into emails: one per value of the present run, in suffix order. */
  lemma EmailRun(data: Row, prefix: string, t: TypeId)
    ensures var es := EmailsOf(Series(data, prefix), t);
      IsRun(data, prefix, |es|) && forall j :: 1 <= j <= |es| ==> es[j - 1] == Email(data[Suffixed(prefix, j)], t)
  {
    SeriesIsLongestPresentRun(data, prefix);
  }

  /** A series turned into phones: one per value of the present run, in suffix order. */
  lemma PhoneRun(data: Row, prefix: string, t: TypeId)
    ensures var ps := PhonesOf(Series(data, prefix), t);
      IsRun(data, prefix, |ps|) && forall j :: 1 <= j <= |ps| ==> ps[j - 1] == Phone(data[Suffixed(prefix, j)], t)
  {
    SeriesIsLongestPresentRun(data, prefix);
  }

  /** A series turned into faxes: one per value of the present run, in suffix order. */
  lemma FaxRun(data: Row, prefix: string, t: TypeId)
    ensures var fs := FaxesOf(Series(data, prefix), t);
      IsRun(data, prefix, |fs|) && forall j :: 1 <= j <= |fs| ==> fs[j - 1] == Fax(data[Suffixed(prefix, j)], t)
  {
    SeriesIsLongestPresentRun(data, prefix);
  }

  /** A series turned into urls: one per value of the present run, in suffix order. */
  lemma UrlRun(data: Row, prefix: string, t: TypeId)
    ensures var us := UrlsOf(Series(data, prefix), t);
      IsRun(data, prefix, |us|) && forall j :: 1 <= j <= |us| ==> us[j - 1] == Url(data[Suffixed(prefix, j)], t)
  {
    SeriesIsLongestPresentRun(data, prefix);
  }

  /** The series fields of a complete account are those `WithSeries` sets. */
  lemma AccountForSeriesFields(data: Row, s: Settings, env: Env, categories: map<string, Category>, tags: map<string, Tag>, serial: nat)
    requires Present(data, "account_name")
    requires !AddressFor(data, s, env).CountryNotFound?
    ensures var a := AccountFor(data, s, env, categories, tags, serial);
      var w := WithSeries(data, env.defaults, a);
      a.emails == w.emails && a.phones == w.phones && a.faxes == w.faxes && a.urls == w.urls
  {
    AccountForKeepsFields(data, s, env, categories, tags, serial);
  }

  /** The value objects the suffix loops of `createAccount` give an account: the emails,
      phones, faxes and urls are the present runs email1.., phone1.., fax1.., url1.. from
      suffix 1, in order, each with its default type; a present `phone_isdn` adds one more
      phone, last, with the isdn type. With `AccountForSeriesFields` this describes every
      complete account. */
  lemma WithSeriesRuns(data: Row, d: Defaults, a: Account)
    ensures var w := WithSeries(data, d, a);
      var np := |Series(data, "phone")|;
      IsRun(data, "email", |w.emails|) &&
      (forall j :: 1 <= j <= |w.emails| ==> w.emails[j - 1] == Email(data[Suffixed("email", j)], d.emailType)) &&
      |w.phones| == np + (if Present(data, "phone_isdn") then 1 else 0) &&
      IsRun(data, "phone", np) &&
      (forall j :: 1 <= j <= np ==> w.phones[j - 1] == Phone(data[Suffixed("phone", j)], d.phoneType)) &&
      (Present(data, "phone_isdn") ==> w.phones[np] == Phone(data["phone_isdn"], d.phoneTypeIsdn)) &&
      IsRun(data, "fax", |w.faxes|) &&
      (forall j :: 1 <= j <= |w.faxes| ==> w.faxes[j - 1] == Fax(data[Suffixed("fax", j)], d.faxType)) &&
      IsRun(data, "url", |w.urls|) &&
      (forall j :: 1 <= j <= |w.urls| ==> w.urls[j - 1] == Url(data[Suffixed("url", j)], d.urlType))
  {
    var w := WithSeries(data, d, a);
    var ps := PhonesOf(Series(data, "phone"), d.phoneType);
    var isdn: seq<Phone> := if Present(data, "phone_isdn") then [Phone(data["phone_isdn"], d.phoneTypeIsdn)] else [];
    assert w.emails == EmailsOf(Series(data, "email"), d.emailType);
    assert w.phones == ps + isdn;
    assert w.faxes == FaxesOf(Series(data, "fax"), d.faxType);
    assert w.urls == UrlsOf(Series(data, "url"), d.urlType);
    EmailRun(data, "email", d.emailType);
    PhoneRun(data, "phone", d.phoneType);
    FaxRun(data, "fax", d.faxType);
    UrlRun(data, "url", d.urlType);
    forall k | 0 <= k < |ps|
      ensures w.phones[k] == ps[k]
    {
      assert k < |ps|;
    }
  }

  /** A complete account row has its name, no parent yet, the present ibans as bank accounts
      (gaps skipped), at most one note, and an address exactly when the address rule
      attaches one. */
  lemma AccountForRest(data: Row, s: Settings, env: Env, categories: map<string, Category>, tags: map<string, Tag>, serial: nat)
    requires Present(data, "account_name")
    requires !AddressFor(data, s, env).CountryNotFound?
    ensures var a := AccountFor(data, s, env, categories, tags, serial);
      a.name == Some(data["account_name"]) && a.parent == None &&
      a.bankAccounts == IbansFrom(data, 1) &&
      |a.notes| <= 1 &&
      (a.notes == [] <==> AccountNotes(data) == [] && BlzTextFrom(data, 1) == "") &&
      (a.addresses != [] <==> AddressFor(data, s, env).Attach?)
  {
    var f := AccountFields(data, s, env, categories, tags, serial);
    AccountNoteKeepsGaps(data);
    BankFromBanks(data, 1, BankState(f.notes, [], []));
    if |f.notes| > 0 {
      BankFromFirstNote(data, 1, BankState(f.notes, [], []));
    } else {
      BankFromNoNote(data, 1, BankState(f.notes, [], []));
    }
  }

  /** The note of a complete account row: the joined note columns followed by every legacy
      bank text; without note columns, the legacy texts alone, less their leading '\n'. */
  lemma AccountForNote(data: Row, s: Settings, env: Env, categories: map<string, Category>, tags: map<string, Tag>, serial: nat)
    requires Present(data, "account_name")
    requires !AddressFor(data, s, env).CountryNotFound?
    ensures var a := AccountFor(data, s, env, categories, tags, serial);
      (AccountNotes(data) != [] ==> a.notes == [Note(AccountNotes(data)[0].text + BlzTextFrom(data, 1))]) &&
      (AccountNotes(data) == [] && BlzTextFrom(data, 1) != "" ==>
         |BlzTextFrom(data, 1)| >= |LiteralNewline| && a.notes == [Note(BlzTextFrom(data, 1)[|LiteralNewline|..])])
  {
    var f := AccountFields(data, s, env, categories, tags, serial);
    AccountNoteKeepsGaps(data);
    if |f.notes| > 0 {
      BankFromFirstNote(data, 1, BankState(f.notes, [], []));
      assert f.notes[1..] == [];
    } else {
      BankFromNoNote(data, 1, BankState(f.notes, [], []));
    }
  }

  /** The records a row persists up to its address, in the `createAccount` order. */
  function AccountFieldsRecords(data: Row, s: Settings, env: Env, categories: map<string, Category>, tags: map<string, Tag>, serial: nat): seq<Persisted>
    requires Present(data, "account_name")
  {
    HeadRecords(data, categories, tags, serial) + SeriesRecords(AccountFields(data, s, env, categories, tags, serial))
  }

  /** The records of a row's new category and new tag. */
  function HeadRecords(data: Row, categories: map<string, Category>, tags: map<string, Tag>, serial: nat): seq<Persisted>
  {
    CategoryRecords(data, categories, serial) + TagRecords(data, "account_tag", tags, CategorySerial(data, categories, serial))
  }

  /** The record of a row's category when it is not a cached one. */
  function CategoryRecords(data: Row, categories: map<string, Category>, serial: nat): seq<Persisted>
  {
    if Present(data, "account_category") && data["account_category"] !in categories
    then [CategoryRecord(PickCategory(categories, data["account_category"], serial))] else []
  }

  /** The record of the tag in a row's `column` when it is not a cached one. */
  function TagRecords(data: Row, column: string, tags: map<string, Tag>, serial: nat): seq<Persisted>
  {
    if Present(data, column) && data[column] !in tags then [TagRecord(PickTag(tags, data[column], serial))] else []
  }

  /** The records of an account's emails, phones, faxes, urls and notes, in that order. */
  function SeriesRecords(a: Account): seq<Persisted>
  {
    EmailRecords(a.emails) + PhoneRecords(a.phones) + FaxRecords(a.faxes) + UrlRecords(a.urls) + NoteRecords(a.notes)
  }

  /** The records of the series appended one kind after the other. */
  lemma SeriesRecordsNest(done: seq<Persisted>, a: Account)
    ensures done + SeriesRecords(a) ==
              done + EmailRecords(a.emails) + PhoneRecords(a.phones) + FaxRecords(a.faxes) + UrlRecords(a.urls) + NoteRecords(a.notes)
  {
  }

  /** The contact instance a row builds before its address. */
  function ContactFields(data: Row, tags: map<string, Tag>, serial: nat, index: map<string, nat>): Contact
  {
    Contact(
      if Present(data, "contact_firstname") then data["contact_firstname"] else "",
      if Present(data, "contact_lastname") then data["contact_lastname"] else "",
      Opt(data, "contact_title"), Opt(data, "contact_position"), Opt(data, "contact_formOfAddress"),
      Opt(data, "contact_salutation"), Opt(data, "contact_birthday"), Opt(data, "contact_disabled"),
      if Present(data, "contact_tag") then [PickTag(tags, data["contact_tag"], serial)] else [],
      if Present(data, "contact_parent") && data["contact_parent"] in index then Some(index[data["contact_parent"]]) else None,
      [], [], [], [], [])
  }

  /** The contact a row without errors builds. Unlike an account's, a contact's notes are a
      series that stops at the first gap, one note per column. */
  function ContactFor(data: Row, s: Settings, env: Env, tags: map<string, Tag>, serial: nat, index: map<string, nat>): Contact
    requires !AddressFor(data, s, env).CountryNotFound?
  {
    var address := AddressFor(data, s, env);
    ContactWithSeries(data, env.defaults,
                      ContactFields(data, tags, serial, index).(addresses := if address.Attach? then [address.address] else []))
  }

  /** A contact with the emails, phones (mobile last), faxes and notes of a row's series. */
  function ContactWithSeries(data: Row, d: Defaults, k: Contact): Contact
  {
    k.(emails := EmailsOf(Series(data, "email"), d.emailType),
       phones := PhonesOf(Series(data, "phone"), d.phoneType)
                 + (if Present(data, "phone_mobile") then [Phone(data["phone_mobile"], d.phoneTypeMobile)] else []),
       faxes := FaxesOf(Series(data, "fax"), d.faxType),
       notes := NotesOf(Series(data, "note")))
  }

  /** The records of a contact's emails, phones, faxes and notes, in that order. */
  function ContactSeriesRecords(k: Contact): seq<Persisted>
  {
    EmailRecords(k.emails) + PhoneRecords(k.phones) + FaxRecords(k.faxes) + NoteRecords(k.notes)
  }

  /** A contact's names default to the empty text; its account is the indexed account of a
      present `contact_parent`, and none when the key is unknown; its notes stop at the first gap. */
  lemma ContactForShape(data: Row, s: Settings, env: Env, tags: map<string, Tag>, serial: nat, index: map<string, nat>)
    requires !AddressFor(data, s, env).CountryNotFound?
    ensures var c := ContactFor(data, s, env, tags, serial, index);
      (c.firstName == "" <==> !Present(data, "contact_firstname")) &&
      (c.lastName == "" <==> !Present(data, "contact_lastname")) &&
      (c.account.Some? <==> Present(data, "contact_parent") && data["contact_parent"] in index) &&
      (c.account.Some? ==> c.account.value == index[data["contact_parent"]]) &&
      (c.addresses != [] <==> AddressFor(data, s, env).Attach?)
  {
  }

  /** A contact's notes are the present run note1.. from suffix 1, one note per column. */
  lemma ContactForNotes(data: Row, s: Settings, env: Env, tags: map<string, Tag>, serial: nat, index: map<string, nat>)
    requires !AddressFor(data, s, env).CountryNotFound?
    ensures var c := ContactFor(data, s, env, tags, serial, index);
      |c.notes| <= MaxSuffix &&
      (forall j :: 1 <= j <= |c.notes| ==> Present(data, Suffixed("note", j)) && c.notes[j - 1] == Note(data[Suffixed("note", j)])) &&
      (|c.notes| < MaxSuffix ==> !Present(data, Suffixed("note", |c.notes| + 1)))
  {
    SeriesIsLongestPresentRun(data, "note");
    var c := ContactFor(data, s, env, tags, serial, index);
    assert c.notes == NotesOf(Series(data, "note"));
  }
}
