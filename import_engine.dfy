/** The importer object of Import.php: its configuration fields, the account list and
    row-key index it fills, the category and tag caches, and the entity manager log. Each
    state-changing method is proved against the functions of ImportRules and ImportSteps. */
module ImportEngine {
  import opened Wrappers
  import opened PhpBuiltins
  import opened ImportRules
  import opened ImportSteps

  /** A decoded mappings file group by group: a group the file does not have is None. */
  datatype Mappings = Mappings(
    columns: Option<seq<(string, string)>>, ids: Option<map<string, string>>, options: Option<map<string, bool>>,
    countries: Option<seq<(string, string)>>, accountTypes: Option<seq<(int, string)>>)

  /** What reading the mappings file gave: no content (a missing or empty file), or the
      decoded JSON, None standing for a falsy decode (invalid JSON, an empty object). */
  datatype MappingsFile = NoContent | Decoded(json: Option<Mappings>)

  /** The message of the exception a falsy decode raises. */
  const NoValidJson: string := "no valid JSON in mappings file"

  /** The settings after a decoded mappings file: each group the file has replaces the
      current one, except the options, which are merged as by `setOptions`; a group the file
      lacks and the limit stay. */
  function Applied(s: Settings, m: Mappings): (r: Settings)
    ensures m.columns.Some? ==> r.columns == m.columns.value
    ensures m.columns.None? ==> r.columns == s.columns
    ensures m.ids.Some? ==> r.ids == m.ids.value
    ensures m.ids.None? ==> r.ids == s.ids
    ensures m.options.Some? ==> r.options == s.options + m.options.value
    ensures m.options.None? ==> r.options == s.options
    ensures m.countries.Some? ==> r.countryAliases == m.countries.value
    ensures m.countries.None? ==> r.countryAliases == s.countryAliases
    ensures m.accountTypes.Some? ==> r.accountTypes == m.accountTypes.value
    ensures m.accountTypes.None? ==> r.accountTypes == s.accountTypes
    ensures r.limit == s.limit
  {
    Settings(
      if m.columns.Some? then m.columns.value else s.columns,
      if m.ids.Some? then m.ids.value else s.ids,
      if m.options.Some? then s.options + m.options.value else s.options,
      if m.countries.Some? then m.countries.value else s.countryAliases,
      if m.accountTypes.Some? then m.accountTypes.value else s.accountTypes,
      s.limit)
  }

  class Importer {
    var columnMappings: seq<(string, string)>
    var idMappings: map<string, string>
    var options: map<string, bool>
    var countryMappings: seq<(string, string)>
    var accountTypeMappings: seq<(int, string)>
    var limit: Option<int>
    var accounts: seq<Account>
    var associativeAccounts: map<string, nat>
    var accountCategories: map<string, Category>
    var tags: map<string, Tag>
    /** The persist and flush calls made on the entity manager, in order. */
    var log: seq<EmCall>
    /** The number the next new category or tag instance gets. */
    var serial: nat
    /** The default types, the countries of the datastore and the library behaviour. */
    const env: Env

    function Config(): Settings
      reads this
    {
      Settings(columnMappings, idMappings, options, countryMappings, accountTypeMappings, limit)
    }

    function State(): ImportState
      reads this
    {
      ImportState(accounts, associativeAccounts, serial)
    }

    function Caches(): Caches
      reads this
    {
      ImportSteps.Caches(accountCategories, tags)
    }

    /** `__construct`: the declared defaults, then the caches loaded from the datastore's
        records. */
    constructor(env: Env, storedCategories: seq<Category>, storedTags: seq<Tag>)
      ensures Config() == Settings([], DefaultIdMappings, DefaultOptions, [], DefaultAccountTypeMappings, None)
      ensures State() == ImportState([], map[], 0) && log == [] && this.env == env
      ensures accountCategories == Assign(Keyed(storedCategories, CategoryName))
      ensures tags == Assign(Keyed(storedTags, TagName))
    {
      this.env := env;
      columnMappings := [];
      idMappings := DefaultIdMappings;
      options := DefaultOptions;
      countryMappings := [];
      accountTypeMappings := DefaultAccountTypeMappings;
      limit := None;
      accounts := [];
      associativeAccounts := map[];
      accountCategories := map[];
      tags := map[];
      log := [];
      serial := 0;
      new;
      LoadAccountCategories(storedCategories);
      LoadTags(storedTags);
      assert map[] + Assign(Keyed(storedCategories, CategoryName)) == Assign(Keyed(storedCategories, CategoryName));
      assert map[] + Assign(Keyed(storedTags, TagName)) == Assign(Keyed(storedTags, TagName));
    }

    /** `loadAccountCategories`: each stored category is assigned under its name, a later
        record overriding an earlier one. */
    method LoadAccountCategories(stored: seq<Category>)
      modifies this
      ensures accountCategories == old(accountCategories) + Assign(Keyed(stored, CategoryName))
      ensures Config() == old(Config()) && State() == old(State()) && tags == old(tags) && log == old(log)
    {
      var i := 0;
      while i < |stored|
        invariant 0 <= i <= |stored|
        invariant accountCategories == old(accountCategories) + Assign(Keyed(stored[..i], CategoryName))
        invariant Config() == old(Config()) && State() == old(State()) && tags == old(tags) && log == old(log)
      {
        assert Keyed(stored[..i + 1], CategoryName) == Keyed(stored[..i], CategoryName) + [(stored[i].name, stored[i])];
        AssignExtend(old(accountCategories), Keyed(stored[..i], CategoryName), stored[i].name, stored[i]);
        accountCategories := accountCategories[stored[i].name := stored[i]];
        i := i + 1;
      }
      assert stored[..|stored|] == stored;
    }

    /** `loadTags`: each stored tag is assigned under its name. */
    method LoadTags(stored: seq<Tag>)
      modifies this
      ensures tags == old(tags) + Assign(Keyed(stored, TagName))
      ensures Config() == old(Config()) && State() == old(State()) && accountCategories == old(accountCategories) && log == old(log)
    {
      var i := 0;
      while i < |stored|
        invariant 0 <= i <= |stored|
        invariant tags == old(tags) + Assign(Keyed(stored[..i], TagName))
        invariant Config() == old(Config()) && State() == old(State()) && accountCategories == old(accountCategories) && log == old(log)
      {
        assert Keyed(stored[..i + 1], TagName) == Keyed(stored[..i], TagName) + [(stored[i].name, stored[i])];
        AssignExtend(old(tags), Keyed(stored[..i], TagName), stored[i].name, stored[i]);
        tags := tags[stored[i].name := stored[i]];
        i := i + 1;
      }
      assert stored[..|stored|] == stored;
    }

    // ------------------------------------------------------------ configuration

    method SetColumnMappings(columns: seq<(string, string)>)
      modifies this
      ensures Config() == old(Config()).(columns := columns)
      ensures State() == old(State()) && Caches() == old(Caches()) && log == old(log)
    {
      columnMappings := columns;
    }

    method SetIdMappings(ids: map<string, string>)
      modifies this
      ensures Config() == old(Config()).(ids := ids)
      ensures State() == old(State()) && Caches() == old(Caches()) && log == old(log)
    {
      idMappings := ids;
    }

    /** `setOptions`: `array_merge` of the current options with the given ones, the given
        value winning for a key both have. */
    method SetOptions(opts: map<string, bool>)
      modifies this
      ensures Config() == old(Config()).(options := options)
      ensures options.Keys == old(options).Keys + opts.Keys
      ensures forall k :: k in opts ==> options[k] == opts[k]
      ensures forall k :: k in old(options) && k !in opts ==> options[k] == old(options)[k]
      ensures State() == old(State()) && Caches() == old(Caches()) && log == old(log)
    {
      options := options + opts;
    }

    method SetCountryMappings(countries: seq<(string, string)>)
      modifies this
      ensures Config() == old(Config()).(countryAliases := countries)
      ensures State() == old(State()) && Caches() == old(Caches()) && log == old(log)
    {
      countryMappings := countries;
    }

    method SetAccountTypeMappings(types: seq<(int, string)>)
      modifies this
      ensures Config() == old(Config()).(accountTypes := types)
      ensures State() == old(State()) && Caches() == old(Caches()) && log == old(log)
    {
      accountTypeMappings := types;
    }

    method SetLimit(n: Option<int>)
      modifies this
      ensures Config() == old(Config()).(limit := n)
      ensures State() == old(State()) && Caches() == old(Caches()) && log == old(log)
    {
      limit := n;
    }

    /** `processMappingsFile`: without content nothing changes and the result is false; a
        falsy decode raises; otherwise the groups the file has are applied. */
    method ProcessMappings(file: MappingsFile) returns (r: Result<bool, string>)
      modifies this
      ensures file.NoContent? ==> r == Ok(false) && Config() == old(Config())
      ensures file.Decoded? && file.json.None? ==> r == Err(NoValidJson) && Config() == old(Config())
      ensures file.Decoded? && file.json.Some? ==> r == Ok(true) && Config() == Applied(old(Config()), file.json.value)
      ensures State() == old(State()) && Caches() == old(Caches()) && log == old(log)
    {
      if file.NoContent? {
        return Ok(false);
      }
      if file.json.None? {
        return Err(NoValidJson);
      }
      var next := Applied(Config(), file.json.value);
      columnMappings := next.columns;
      idMappings := next.ids;
      options := next.options;
      countryMappings := next.countryAliases;
      accountTypeMappings := next.accountTypes;
      return Ok(true);
    }

    // ------------------------------------------------------------ lookups and helpers

    /** `getAccountByKey`: the indexed account, or null. */
    function GetAccountByKey(key: string): (r: Option<nat>)
      reads this
      ensures r.Some? <==> key in associativeAccounts
      ensures r.Some? ==> r.value == associativeAccounts[key]
    {
      if key in associativeAccounts then Some(associativeAccounts[key]) else None
    }

    /** `em->persist` for each record, in order. */
    method PersistAll(records: seq<Persisted>)
      modifies this
      ensures log == old(log) + Persists(records)
      ensures Config() == old(Config()) && State() == old(State()) && Caches() == old(Caches())
    {
      var i := 0;
      while i < |records|
        invariant 0 <= i <= |records|
        invariant log == old(log) + Persists(records[..i])
        invariant Config() == old(Config()) && State() == old(State()) && Caches() == old(Caches())
      {
        assert Persists(records[..i + 1]) == Persists(records[..i]) + [Persist(records[i])];
        log := log + [Persist(records[i])];
        i := i + 1;
      }
      assert records[..|records|] == records;
    }

    /** `addCategory`: the cached category of that name, or a new one, persisted. The cache
        is never written. */
    method AddCategory(name: string) returns (category: Category)
      modifies this
      ensures category == PickCategory(accountCategories, name, old(serial))
      ensures name in accountCategories ==> serial == old(serial) && log == old(log)
      ensures name !in accountCategories ==> serial == old(serial) + 1 && log == old(log) + [Persist(CategoryRecord(category))]
      ensures Config() == old(Config()) && accounts == old(accounts) && associativeAccounts == old(associativeAccounts)
      ensures Caches() == old(Caches())
    {
      if name in accountCategories {
        category := accountCategories[name];
      } else {
        category := Category(name, Created(serial));
        serial := serial + 1;
        log := log + [Persist(CategoryRecord(category))];
      }
    }

    /** `addTag`: the cached tag of that name, or a new one, persisted. The cache is never
        written. */
    method AddTag(name: string) returns (tag: Tag)
      modifies this
      ensures tag == PickTag(tags, name, old(serial))
      ensures name in tags ==> serial == old(serial) && log == old(log)
      ensures name !in tags ==> serial == old(serial) + 1 && log == old(log) + [Persist(TagRecord(tag))]
      ensures Config() == old(Config()) && accounts == old(accounts) && associativeAccounts == old(associativeAccounts)
      ensures Caches() == old(Caches())
    {
      if name in tags {
        tag := tags[name];
      } else {
        tag := Tag(name, Created(serial));
        serial := serial + 1;
        log := log + [Persist(TagRecord(tag))];
      }
    }

    /** `addAddress`, with its `$addAddress` flag: the street sets it, a missing city or
        country clears it, the zip leaves it; an unknown country raises. */
    method AddAddress(data: Row) returns (d: AddressDecision)
      modifies this
      ensures d == AddressFor(data, Config(), env)
      ensures log == old(log) + Persists(AddressRecords(d))
      ensures Config() == old(Config()) && State() == old(State()) && Caches() == old(Caches())
    {
      var street := "";
      var number: Option<string> := None;
      var addAddress := false;
      if Present(data, "street") {
        street := data["street"];
        if SplitStreet(options) {
          var parts := env.splitStreet(street);
          street := parts.0;
          number := Some(parts.1);
        }
        addAddress := true;
      }
      if number.None? && Present(data, "number") {
        number := Some(data["number"]);
      }
      var zip: Option<string> := None;
      if Present(data, "zip") {
        zip := Some(data["zip"]);
        addAddress := addAddress && true;
      }
      var city := "";
      if Present(data, "city") {
        city := data["city"];
        addAddress := addAddress && true;
      } else {
        addAddress := addAddress && false;
      }
      var country: CountryId := 0;
      if Present(data, "country") {
        var code := CountryCode(countryMappings, data["country"]);
        if code !in env.countries {
          return CountryNotFound(data["country"]);
        }
        country := env.countries[code];
        addAddress := addAddress && true;
      } else {
        addAddress := addAddress && false;
      }
      if addAddress {
        var address := Address(street, number, zip, city, country, env.defaults.addressType);
        log := log + [Persist(AddressRecord(address))];
        return Attach(address);
      }
      return NoAddress;
    }

    /** `addBankAccounts` on an entity with the given notes: iterations 1..9, each adding
        the bank account of a present iban and folding a present blz into the first note. */
    method AddBankAccounts(data: Row, notes: seq<Note>) returns (notesOut: seq<Note>, banks: seq<BankAccount>)
      modifies this
      ensures var b := BankFrom(data, 1, BankState(notes, [], []));
        notesOut == b.notes && banks == b.banks && log == old(log) + Persists(b.persisted)
      ensures Config() == old(Config()) && State() == old(State()) && Caches() == old(Caches())
    {
      ghost var final := BankFrom(data, 1, BankState(notes, [], []));
      ghost var base := log;
      var current := BankState(notes, [], []);
      assert log == base + Persists([]);
      var i := 1;
      while i <= MaxSuffix
        invariant 1 <= i <= MaxSuffix + 1
        invariant BankFrom(data, i, current) == final
        invariant log == base + Persists(current.persisted)
        invariant Config() == old(Config()) && State() == old(State()) && Caches() == old(Caches())
      {
        current := BankIteration(data, i, current, base);
        i := i + 1;
      }
      notesOut := current.notes;
      banks := current.banks;
    }

    /** One iteration of `addBankAccounts`, persisting what it creates. */
    method BankIteration(data: Row, i: nat, current: BankState, ghost base: seq<EmCall>) returns (next: BankState)
      requires 1 <= i <= MaxSuffix && log == base + Persists(current.persisted)
      modifies this
      ensures next == BankStep(data, i, current) && log == base + Persists(next.persisted)
      ensures Config() == old(Config()) && State() == old(State()) && Caches() == old(Caches())
    {
      next := current;
      if Present(data, Suffixed("iban", i)) {
        var bank := IbanAccount(data, i);
        PersistsSnoc(next.persisted, BankRecord(bank));
        log := log + [Persist(BankRecord(bank))];
        next := next.(banks := next.banks + [bank], persisted := next.persisted + [BankRecord(bank)]);
      }
      assert next == IbanStep(data, i, current);
      ghost var middle := next;
      if Present(data, Suffixed("blz", i)) {
        if |next.notes| > 0 {
          next := next.(notes := [Note(next.notes[0].text + (LiteralNewline + OldBankText(data, i)))] + next.notes[1..]);
        } else {
          PersistsSnoc(next.persisted, NoteRecord);
          log := log + [Persist(NoteRecord)];
          next := next.(notes := [Note(OldBankText(data, i))], persisted := next.persisted + [NoteRecord]);
        }
      }
      assert next == BlzStep(data, i, middle);
    }

    // ------------------------------------------------------------ rows

    /** The persist calls so far, as records. */
    method PersistMore(records: seq<Persisted>, ghost done: seq<Persisted>, ghost base: seq<EmCall>)
      requires log == base + Persists(done)
      modifies this
      ensures log == base + Persists(done + records)
      ensures Config() == old(Config()) && State() == old(State()) && Caches() == old(Caches())
    {
      PersistAll(records);
      PersistsAppend(done, records);
    }

    /** The setters of `createAccount` up to the note. */
    method BuildAccountFields(data: Row) returns (account: Account)
      requires Present(data, "account_name")
      modifies this
      ensures account == AccountFields(data, Config(), env, accountCategories, tags, old(serial))
      ensures serial == AccountSerial(data, Caches(), old(serial))
      ensures log == old(log) + Persists(AccountFieldsRecords(data, Config(), env, accountCategories, tags, old(serial)))
      ensures Config() == old(Config()) && Caches() == old(Caches())
      ensures accounts == old(accounts) && associativeAccounts == old(associativeAccounts)
    {
      account := BuildAccountHead(data);
      account := AddAccountSeries(data, account, HeadRecords(data, accountCategories, tags, old(serial)), old(log));
    }

    /** The name, the optional scalars, the type, then `addCategory` and `addTag`. */
    method BuildAccountHead(data: Row) returns (account: Account)
      requires Present(data, "account_name")
      modifies this
      ensures account == AccountHead(data, Config(), accountCategories, tags, old(serial))
      ensures serial == AccountSerial(data, Caches(), old(serial))
      ensures log == old(log) + Persists(HeadRecords(data, accountCategories, tags, old(serial)))
      ensures Config() == old(Config()) && Caches() == old(Caches())
      ensures accounts == old(accounts) && associativeAccounts == old(associativeAccounts)
    {
      account := NewAccount.(
        name := Some(data["account_name"]),
        division := Opt(data, "account_division"),
        disabled := Opt(data, "account_disabled"),
        uid := Opt(data, "account_uid"),
        registerNumber := Opt(data, "account_registerNumber"),
        accountType := if Present(data, "account_type") then Some(AccountType(accountTypeMappings, data["account_type"])) else None);
      var category := AttachCategory(data);
      account := account.(category := category);
      var tag := AttachTag(data, "account_tag");
      account := account.(tags := tag);
      PersistsAppend(CategoryRecords(data, accountCategories, old(serial)),
                     TagRecords(data, "account_tag", tags, CategorySerial(data, accountCategories, old(serial))));
    }

    /** `addCategory` when the row has a category. */
    method AttachCategory(data: Row) returns (category: Option<Category>)
      modifies this
      ensures category == if Present(data, "account_category") then Some(PickCategory(accountCategories, data["account_category"], old(serial))) else None
      ensures serial == CategorySerial(data, accountCategories, old(serial))
      ensures log == old(log) + Persists(CategoryRecords(data, accountCategories, old(serial)))
      ensures Config() == old(Config()) && Caches() == old(Caches())
      ensures accounts == old(accounts) && associativeAccounts == old(associativeAccounts)
    {
      category := None;
      if Present(data, "account_category") {
        var c := AddCategory(data["account_category"]);
        category := Some(c);
      }
    }

    /** `addTag` when the row has a tag in `column`: the tags the entity then holds. */
    method AttachTag(data: Row, column: string) returns (added: seq<Tag>)
      modifies this
      ensures added == if Present(data, column) then [PickTag(tags, data[column], old(serial))] else []
      ensures serial == TagSerial(data, column, tags, old(serial))
      ensures log == old(log) + Persists(TagRecords(data, column, tags, old(serial)))
      ensures Config() == old(Config()) && Caches() == old(Caches())
      ensures accounts == old(accounts) && associativeAccounts == old(associativeAccounts)
    {
      added := [];
      if Present(data, column) {
        var t := AddTag(data[column]);
        added := [t];
      }
    }

    /** The suffix loops of `createAccount` (emails, phones and the isdn phone, faxes, urls)
        and the joined note, each value persisted as it is added. */
    method AddAccountSeries(data: Row, a: Account, ghost done: seq<Persisted>, ghost base: seq<EmCall>) returns (account: Account)
      requires log == base + Persists(done)
      modifies this
      ensures account == WithSeries(data, env.defaults, a)
      ensures log == base + Persists(done + SeriesRecords(account))
      ensures Config() == old(Config()) && State() == old(State()) && Caches() == old(Caches())
    {
      var d := env.defaults;
      var values := CollectSeries(data, "email");
      var emails := EmailsOf(values, d.emailType);
      values := CollectSeries(data, "phone");
      var phones := PhonesOf(values, d.phoneType);
      if Present(data, "phone_isdn") {
        phones := phones + [Phone(data["phone_isdn"], d.phoneTypeIsdn)];
      }
      values := CollectSeries(data, "fax");
      var faxes := FaxesOf(values, d.faxType);
      values := CollectSeries(data, "url");
      var urls := UrlsOf(values, d.urlType);
      var noteValues := CollectPresent(data, "note");
      var notes := if |noteValues| > 0 then [Note(Implode(LiteralNewline, noteValues))] else [];
      account := a.(emails := emails, phones := phones, faxes := faxes, urls := urls, notes := notes);
      PersistSeries(account, done, base);
    }

    /** The records of an account's series, persisted kind by kind. */
    method PersistSeries(account: Account, ghost done: seq<Persisted>, ghost base: seq<EmCall>)
      requires log == base + Persists(done)
      modifies this
      ensures log == base + Persists(done + SeriesRecords(account))
      ensures Config() == old(Config()) && State() == old(State()) && Caches() == old(Caches())
    {
      ghost var persisted := done;
      PersistMore(EmailRecords(account.emails), persisted, base);
      persisted := persisted + EmailRecords(account.emails);
      PersistMore(PhoneRecords(account.phones), persisted, base);
      persisted := persisted + PhoneRecords(account.phones);
      PersistMore(FaxRecords(account.faxes), persisted, base);
      persisted := persisted + FaxRecords(account.faxes);
      PersistMore(UrlRecords(account.urls), persisted, base);
      persisted := persisted + UrlRecords(account.urls);
      PersistMore(NoteRecords(account.notes), persisted, base);
      persisted := persisted + NoteRecords(account.notes);
      SeriesRecordsNest(done, account);
    }

    /** `createAccount`: appends a fresh account, indexes it under the row's id value
        (raising when the id column is missing), stops at a row without a name, and
        otherwise sets the fields, the address and the bank accounts and persists it. */
    method CreateAccount(data: Row) returns (result: RowResult)
      modifies this
      ensures var o := AccountRow(old(Config()), env, old(Caches()), old(State()), data);
        result == o.result && State() == o.state && log == old(log) + Persists(o.persisted)
      ensures Config() == old(Config()) && Caches() == old(Caches())
    {
      var h := |accounts|;
      accounts := accounts + [NewAccount];
      if "account_id" in idMappings {
        if idMappings["account_id"] !in data {
          return Raised(MissingIdColumn(idMappings["account_id"]));
        }
        associativeAccounts := associativeAccounts[data[idMappings["account_id"]] := h];
      }
      if !Present(data, "account_name") {
        return Skipped;
      }
      result := CreateNamedAccount(data, h);
    }

    /** `createAccount` after the name check, the fresh account being at `h`. */
    method CreateNamedAccount(data: Row, h: nat) returns (result: RowResult)
      requires Present(data, "account_name") && h < |accounts|
      modifies this
      ensures var o := NamedAccountRow(old(Config()), env, old(Caches()), old(State()), h, data);
        result == o.result && State() == o.state && log == old(log) + Persists(o.persisted)
      ensures Config() == old(Config()) && Caches() == old(Caches())
    {
      var account := BuildAccountFields(data);
      accounts := accounts[h := account];
      ghost var fieldsLog := log;
      result := CompleteAccount(data, h, account);
      ghost var fields := AccountFieldsRecords(data, Config(), env, accountCategories, tags, old(serial));
      if result == Processed {
        ghost var tail := AccountTailRecords(data, Config(), env, Caches(), old(serial), h);
        PersistsAppend(fields, tail);
        ConcatAssociative(old(log), Persists(fields), Persists(tail));
      }
    }

    /** The end of `createAccount` for a named row whose fields are set: the address (an
        unknown country raises and leaves the partly built account in the list), the bank
        accounts, then the account persisted. */
    method CompleteAccount(data: Row, h: nat, account: Account) returns (result: RowResult)
      requires h < |accounts| && accounts[h] == account
      modifies this
      ensures var address := AddressFor(data, Config(), env);
        var bank := BankFrom(data, 1, BankState(account.notes, [], []));
        if address.CountryNotFound? then
          result == Raised(UnknownCountry(address.code)) && accounts == old(accounts) && log == old(log)
        else
          result == Processed && accounts == old(accounts)[h := Finished(account, address, bank.notes, bank.banks)] &&
          log == old(log) + Persists(CompletionRecords(address, bank, h))
      ensures Config() == old(Config()) && Caches() == old(Caches())
      ensures associativeAccounts == old(associativeAccounts) && serial == old(serial)
    {
      var address := AddAddress(data);
      if address.CountryNotFound? {
        return Raised(UnknownCountry(address.code));
      }
      ghost var addressLog := log;
      FinishAccount(data, h, account, address);
      result := Processed;
      ghost var bank := BankFrom(data, 1, BankState(account.notes, [], []));
      PersistsAppend(AddressRecords(address), bank.persisted + [AccountRecord(h)]);
      ConcatAssociative(old(log), Persists(AddressRecords(address)), Persists(bank.persisted + [AccountRecord(h)]));
    }

    /** `addBankAccounts` on a named account, then the account persisted. */
    method FinishAccount(data: Row, h: nat, account: Account, address: AddressDecision)
      requires h < |accounts|
      modifies this
      ensures var bank := BankFrom(data, 1, BankState(account.notes, [], []));
        accounts == old(accounts)[h := Finished(account, address, bank.notes, bank.banks)] &&
        log == old(log) + Persists(bank.persisted + [AccountRecord(h)])
      ensures Config() == old(Config()) && Caches() == old(Caches())
      ensures associativeAccounts == old(associativeAccounts) && serial == old(serial)
    {
      ghost var bank := BankFrom(data, 1, BankState(account.notes, [], []));
      ghost var base := log;
      var notes, banks := AddBankAccounts(data, account.notes);
      accounts := accounts[h := Finished(account, address, notes, banks)];
      log := log + [Persist(AccountRecord(h))];
      PersistsSnoc(bank.persisted, AccountRecord(h));
      ConcatAssociative(base, Persists(bank.persisted), [Persist(AccountRecord(h))]);
    }

    /** `createContact`: a birthday the date parser rejects raises first; then the names
        (empty when absent), the optional scalars, the tag and the account of a known
        `contact_parent`; an unknown country raises; otherwise the address, the series and
        the contact are persisted. Nothing of the importer's own state but the instance
        counter changes. */
    method CreateContact(data: Row) returns (result: RowResult)
      modifies this
      ensures var o := ContactRow(old(Config()), env, old(Caches()), old(State()), data);
        result == o.result && State() == o.state && log == old(log) + Persists(o.persisted)
      ensures Config() == old(Config()) && Caches() == old(Caches())
    {
      if Present(data, "contact_birthday") && !env.parsesDate(data["contact_birthday"]) {
        return Raised(InvalidBirthday(data["contact_birthday"]));
      }
      var contact := BuildContactHead(data);
      ghost var tagLog := log;
      result := CompleteContact(data, contact);
      if result == Processed {
        ghost var tag := TagRecords(data, "contact_tag", tags, old(serial));
        ghost var tail := ContactTailRecords(data, Config(), env, Caches(), old(State()));
        PersistsAppend(tag, tail);
        ConcatAssociative(old(log), Persists(tag), Persists(tail));
      }
    }

    /** The setters of `createContact` up to the account of `contact_parent`. */
    method BuildContactHead(data: Row) returns (contact: Contact)
      modifies this
      ensures contact == ContactFields(data, tags, old(serial), associativeAccounts)
      ensures serial == TagSerial(data, "contact_tag", tags, old(serial))
      ensures log == old(log) + Persists(TagRecords(data, "contact_tag", tags, old(serial)))
      ensures Config() == old(Config()) && Caches() == old(Caches())
      ensures accounts == old(accounts) && associativeAccounts == old(associativeAccounts)
    {
      contact := Contact(
        if Present(data, "contact_firstname") then data["contact_firstname"] else "",
        if Present(data, "contact_lastname") then data["contact_lastname"] else "",
        Opt(data, "contact_title"), Opt(data, "contact_position"), Opt(data, "contact_formOfAddress"),
        Opt(data, "contact_salutation"), Opt(data, "contact_birthday"), Opt(data, "contact_disabled"),
        [], None, [], [], [], [], []);
      var tag := AttachTag(data, "contact_tag");
      contact := contact.(tags := tag);
      if Present(data, "contact_parent") {
        var account := GetAccountByKey(data["contact_parent"]);
        if account.Some? {
          contact := contact.(account := account);
        }
      }
    }

    /** The end of `createContact`: the address (an unknown country raises), the series,
        then the contact persisted. */
    method CompleteContact(data: Row, contact: Contact) returns (result: RowResult)
      modifies this
      ensures var address := AddressFor(data, Config(), env);
        var k := ContactWithSeries(data, env.defaults, contact.(addresses := if address.Attach? then [address.address] else []));
        if address.CountryNotFound? then
          result == Raised(UnknownCountry(address.code)) && log == old(log)
        else
          result == Processed &&
          log == old(log) + Persists(AddressRecords(address) + (ContactSeriesRecords(k) + [ContactRecord(k)]))
      ensures Config() == old(Config()) && State() == old(State()) && Caches() == old(Caches())
    {
      var address := AddAddress(data);
      if address.CountryNotFound? {
        return Raised(UnknownCountry(address.code));
      }
      ghost var addressLog := log;
      var k := contact.(addresses := if address.Attach? then [address.address] else []);
      k := AddContactSeries(data, k);
      result := Processed;
      ghost var rest := ContactSeriesRecords(k) + [ContactRecord(k)];
      PersistsAppend(AddressRecords(address), rest);
      ConcatAssociative(old(log), Persists(AddressRecords(address)), Persists(rest));
    }

    /** The suffix loops of `createContact` (emails, phones and the mobile phone, faxes,
        notes), each value persisted as it is added, then the contact itself. */
    method AddContactSeries(data: Row, contact: Contact) returns (k: Contact)
      modifies this
      ensures k == ContactWithSeries(data, env.defaults, contact)
      ensures log == old(log) + Persists(ContactSeriesRecords(k) + [ContactRecord(k)])
      ensures Config() == old(Config()) && State() == old(State()) && Caches() == old(Caches())
    {
      var d := env.defaults;
      var values := CollectSeries(data, "email");
      var emails := EmailsOf(values, d.emailType);
      values := CollectSeries(data, "phone");
      var phones := PhonesOf(values, d.phoneType);
      if Present(data, "phone_mobile") {
        phones := phones + [Phone(data["phone_mobile"], d.phoneTypeMobile)];
      }
      values := CollectSeries(data, "fax");
      var faxes := FaxesOf(values, d.faxType);
      values := CollectSeries(data, "note");
      k := contact.(emails := emails, phones := phones, faxes := faxes, notes := NotesOf(values));
      PersistContactSeries(k);
    }

    /** The records of a contact's series, kind by kind, then the contact. */
    method PersistContactSeries(k: Contact)
      modifies this
      ensures log == old(log) + Persists(ContactSeriesRecords(k) + [ContactRecord(k)])
      ensures Config() == old(Config()) && State() == old(State()) && Caches() == old(Caches())
    {
      ghost var base := log;
      PersistMore(EmailRecords(k.emails), [], base);
      PersistMore(PhoneRecords(k.phones), EmailRecords(k.emails), base);
      PersistMore(FaxRecords(k.faxes), EmailRecords(k.emails) + PhoneRecords(k.phones), base);
      PersistMore(NoteRecords(k.notes), EmailRecords(k.emails) + PhoneRecords(k.phones) + FaxRecords(k.faxes), base);
      PersistMore([ContactRecord(k)], ContactSeriesRecords(k), base);
    }

    /** `createAccountParentRelation`: with a present `account_parent`, the account at
        position row - 1 gets the indexed parent, or null for an unknown key; without such a
        position the call on null is an uncaught Error. */
    method CreateAccountParentRelation(data: Row, row: nat) returns (result: RowResult)
      modifies this
      ensures var o := ParentRow(old(State()), data, row);
        result == o.result && State() == o.state && log == old(log)
      ensures Config() == old(Config()) && Caches() == old(Caches())
    {
      result := Processed;
      if Present(data, "account_parent") {
        if !(1 <= row <= |accounts|) {
          return Raised(CallOnNull);
        }
        var account := accounts[row - 1];
        var parent := GetAccountByKey(data["account_parent"]);
        accounts := accounts[row - 1 := account.(parent := parent)];
      }
    }

    /** The callable a pass hands each data row to. */
    method RunCallback(pass: Pass, data: Row, row: nat) returns (result: RowResult)
      modifies this
      ensures var o := Callback(pass, old(Config()), env, old(Caches()))(old(State()), data, row);
        result == o.result && State() == o.state && log == old(log) + Persists(o.persisted)
      ensures Config() == old(Config()) && Caches() == old(Caches())
    {
      match pass
      case AccountPass =>
        result := CreateAccount(data);
      case ParentPass =>
        result := CreateAccountParentRelation(data, row);
      case ContactPass =>
        result := CreateContact(data);
    }

    /** `processCsvLoop` over the lines of a file: line 0 is the header; each later line is
        mapped over it, handed to the pass's callable with the row counter and flushed; the
        loop ends after the row the limit is reached at; a caught exception skips the flush,
        the limit test and the counter increment; an uncaught Error ends the loop. */
    method ProcessCsvLoop(lines: seq<seq<string>>, pass: Pass) returns (end: LoopEnd, steps: seq<Step>)
      modifies this
      ensures var run := CsvLoop(pass, old(Config()), env, old(Caches()), lines, old(State()));
        end == run.end && steps == run.steps && State() == run.state && log == old(log) + run.calls
      ensures Config() == old(Config()) && Caches() == old(Caches())
    {
      ghost var cb := Callback(pass, Config(), env, Caches());
      ghost var run := CsvLoop(pass, Config(), env, Caches(), lines, State());
      var row := 0;
      var header: seq<string> := [];
      var i := 0;
      ghost var calls: seq<EmCall> := [];
      steps := [];
      while i < |lines|
        invariant i <= |lines|
        invariant Config() == old(Config()) && Caches() == old(Caches())
        invariant log == old(log) + calls
        invariant var rest := LoopFrom(cb, columnMappings, limit, lines, i, header, row, State());
          run == Run(rest.end, rest.state, calls + rest.calls, steps + rest.steps)
        decreases |lines| - i
      {
        if row == 0 {
          header := lines[i];
          if LimitReached(limit, row) {
            end := Completed;
            assert steps + [] == steps && calls + [] == calls;
            return;
          }
          row := 1;
          i := i + 1;
          continue;
        }
        ghost var before := State();
        var result := HandleDataLine(pass, lines[i], header, row);
        ghost var o := cb(before, MapRow(columnMappings, header, lines[i]), row);
        ghost var rowCalls := RowCalls(o);
        LoopFromData(cb, columnMappings, limit, lines, i, header, row, before);
        ConcatAssociative(old(log), calls, rowCalls);
        var step := Step(i, row, result);
        if !GoesOn(limit, result, row) {
          end := if result == Raised(CallOnNull) then Aborted else Completed;
          steps := steps + [step];
          calls := calls + rowCalls;
          return;
        }
        ghost var next := LoopFrom(cb, columnMappings, limit, lines, i + 1, header, NextRow(result, row), State());
        ConcatAssociative(calls, rowCalls, next.calls);
        ConcatAssociative(steps, [step], next.steps);
        steps := steps + [step];
        calls := calls + rowCalls;
        row := NextRow(result, row);
        i := i + 1;
      }
      end := Completed;
      assert steps + [] == steps && calls + [] == calls;
    }

    /** One data line of `processCsvLoop`: mapped over the header, handed to the callable,
        then flushed unless the callable raised. */
    method HandleDataLine(pass: Pass, line: seq<string>, header: seq<string>, row: nat) returns (result: RowResult)
      modifies this
      ensures var o := Callback(pass, old(Config()), env, old(Caches()))(old(State()), MapRow(columnMappings, header, line), row);
        result == o.result && State() == o.state && log == old(log) + RowCalls(o)
      ensures Config() == old(Config()) && Caches() == old(Caches())
    {
      var data := MapRowToAssociativeArray(columnMappings, header, line);
      ghost var o := Callback(pass, Config(), env, Caches())(State(), data, row);
      result := RunCallback(pass, data, row);
      var flush: seq<EmCall> := if result.Raised? then [] else [Flush];
      log := log + flush;
      ConcatAssociative(old(log), Persists(o.persisted), flush);
    }

    /** `processAccountFile`: the account pass, then the parent pass over the same lines.
        The account pass never aborts, so the parent pass always runs. */
    method ProcessAccountFile(lines: seq<seq<string>>) returns (end: LoopEnd)
      modifies this
      ensures var a := CsvLoop(AccountPass, old(Config()), env, old(Caches()), lines, old(State()));
        var p := CsvLoop(ParentPass, old(Config()), env, old(Caches()), lines, a.state);
        a.end == Completed && end == p.end && State() == p.state && log == old(log) + a.calls + p.calls
      ensures Config() == old(Config()) && Caches() == old(Caches())
    {
      CsvLoopNeverAborts(AccountPass, Config(), env, Caches(), lines, State());
      var accountSteps, parentSteps;
      end, accountSteps := ProcessCsvLoop(lines, AccountPass);
      end, parentSteps := ProcessCsvLoop(lines, ParentPass);
    }

    /** `processContactFile`: the contact pass, which never aborts. */
    method ProcessContactFile(lines: seq<seq<string>>)
      modifies this
      ensures var r := CsvLoop(ContactPass, old(Config()), env, old(Caches()), lines, old(State()));
        State() == r.state && log == old(log) + r.calls
      ensures Config() == old(Config()) && Caches() == old(Caches())
    {
      var end, steps := ProcessCsvLoop(lines, ContactPass);
    }
  }
}
