/** Validation of a fetched metadata document (metadata.ts). */
module MetadataDocument {
  import opened Basics
  import opened Metadata

  datatype Json = Str(text: string) | Bool(value: bool) | Arr(items: seq<Json>) | Obj(members: map<string, Json>) | Other

  datatype MetadataError =
    | NotAnObject | WrongResource | BadServers | NotIssuer | BadName
    | NotAnArray | TooMany | Twice | BadScopeName | Reserved
    | EntryNotObject | BadDescription | BadFlag | UnsafeText
    | Undeclared | StepUpListed | NoScopes

  datatype Result<T> = Ok(value: T) | Err(error: MetadataError)

  const RESOURCE_NAME_MAX_LENGTH := 200
  const DESCRIPTION_MAX_LENGTH := 300
  const MAX_SCOPES := 50
  const OFFLINE_ACCESS := "offline_access"
  const RESERVED_SCOPES := {"offline_access", "openid"}

  /** The characters that display text must not contain: Unicode categories Cc and Cf, and
      the line and paragraph separators. */
  type Unsafe = set<char>

  predicate IsUnsafe(unsafe: Unsafe, text: string) {
    exists c :: c in text && c in unsafe
  }

  /** The scope-token grammar of section 3.3 of RFC 6749. */
  predicate IsScopeToken(s: string) {
    s != "" && forall c :: c in s ==> c == '!' || '#' <= c <= '[' || ']' <= c <= '~'
  }

  /** An own-property read. */
  function Member(members: map<string, Json>, key: string): Option<Json> {
    if key in members then Some(members[key]) else None
  }

  function DeclaredName(value: Option<Json>): Result<string> {
    if value.None? || !value.value.Str? || !IsScopeToken(value.value.text) then Err(BadScopeName)
    else if value.value.text in RESERVED_SCOPES then Err(Reserved)
    else Ok(value.value.text)
  }

  function OptionalFlag(members: map<string, Json>, key: string): Result<bool> {
    match Member(members, key)
    case None => Ok(false)
    case Some(Bool(b)) => Ok(b)
    case _ => Err(BadFlag)
  }

  // ---------------------------------------------------------------- scopes_supported

  /** The names so far, in order, and whether offline_access was among the entries. */
  datatype Listed = Listed(names: seq<string>, offline: bool)

  function ListEntry(l: Listed, entry: Json): Result<Listed> {
    if entry == Str(OFFLINE_ACCESS) then (if l.offline then Err(Twice) else Ok(l.(offline := true)))
    else match DeclaredName(Some(entry))
      case Err(e) => Err(e)
      case Ok(name) => if name in l.names then Err(Twice) else Ok(l.(names := l.names + [name]))
  }

  function ListEntries(items: seq<Json>): Result<Listed> {
    if items == [] then Ok(Listed([], false))
    else match ListEntries(items[..|items| - 1])
      case Err(e) => Err(e)
      case Ok(l) => ListEntry(l, items[|items| - 1])
  }

  function Supported(raw: Option<Json>): Result<seq<string>> {
    if raw.None? then Ok([])
    else if !raw.value.Arr? then Err(NotAnArray)
    else if |raw.value.items| > MAX_SCOPES then Err(TooMany)
    else match ListEntries(raw.value.items)
      case Err(e) => Err(e)
      case Ok(l) => Ok(l.names)
  }

  lemma {:induction false} PrefixFails(items: seq<Json>, n: nat)
    requires n <= |items| && ListEntries(items[..n]).Err?
    ensures ListEntries(items) == ListEntries(items[..n])
  {
    if n < |items| {
      assert items[..|items| - 1][..n] == items[..n];
      PrefixFails(items[..|items| - 1], n);
    } else {
      assert items[..n] == items;
    }
  }

  method ParseScopesSupported(raw: Option<Json>) returns (r: Result<seq<string>>)
    ensures r == Supported(raw)
  {
    if raw.None? { return Ok([]); }
    if !raw.value.Arr? { return Err(NotAnArray); }
    var items := raw.value.items;
    if |items| > MAX_SCOPES { return Err(TooMany); }
    var seen := [];
    var offlineAccessListed := false;
    for i := 0 to |items|
      invariant ListEntries(items[..i]) == Ok(Listed(seen, offlineAccessListed))
    {
      assert items[..i + 1][..i] == items[..i];
      var entry := items[i];
      var next := ListEntry(Listed(seen, offlineAccessListed), entry);
      if next.Err? {
        PrefixFails(items, i + 1);
        return Err(next.error);
      }
      seen, offlineAccessListed := next.value.names, next.value.offline;
    }
    assert items[..|items|] == items;
    r := Ok(seen);
  }

  // ---------------------------------------------------------------- asterism_scopes

  function DeclareEntry(unsafe: Unsafe, before: seq<DeclaredScope>, entry: Json): Result<DeclaredScope> {
    if !entry.Obj? then Err(EntryNotObject)
    else match DeclaredName(Member(entry.members, "name"))
      case Err(e) => Err(e)
      case Ok(name) =>
        if name in Names(before) then Err(Twice)
        else
          var description := Member(entry.members, "description");
          if description.None? || !description.value.Str? || description.value.text == "" || |description.value.text| > DESCRIPTION_MAX_LENGTH
          then Err(BadDescription)
          else Declare(unsafe, entry.members, name, description.value.text)
  }

  /** The implications of the three flags are applied here, once. */
  function Declare(unsafe: Unsafe, members: map<string, Json>, name: string, description: string): Result<DeclaredScope> {
    var freshSignIn := OptionalFlag(members, "fresh_sign_in");
    var stepUp := OptionalFlag(members, "step_up");
    var shortLived := OptionalFlag(members, "short_lived");
    if freshSignIn.Err? || stepUp.Err? || shortLived.Err? then Err(BadFlag)
    else if IsUnsafe(unsafe, description) then Err(UnsafeText)
    else
      var s := stepUp.value || freshSignIn.value;
      Ok(DeclaredScope(name, description, s, shortLived.value || s, freshSignIn.value))
  }

  function DeclareEntries(unsafe: Unsafe, items: seq<Json>): Result<seq<DeclaredScope>> {
    if items == [] then Ok([])
    else match DeclareEntries(unsafe, items[..|items| - 1])
      case Err(e) => Err(e)
      case Ok(before) =>
        match DeclareEntry(unsafe, before, items[|items| - 1])
        case Err(e) => Err(e)
        case Ok(scope) => Ok(before + [scope])
  }

  function Declared(unsafe: Unsafe, raw: Json): Result<seq<DeclaredScope>> {
    if !raw.Arr? then Err(NotAnArray)
    else if |raw.items| > MAX_SCOPES then Err(TooMany)
    else DeclareEntries(unsafe, raw.items)
  }

  lemma {:induction false} DeclaredPrefixFails(unsafe: Unsafe, items: seq<Json>, n: nat)
    requires n <= |items| && DeclareEntries(unsafe, items[..n]).Err?
    ensures DeclareEntries(unsafe, items) == DeclareEntries(unsafe, items[..n])
  {
    if n < |items| {
      assert items[..|items| - 1][..n] == items[..n];
      DeclaredPrefixFails(unsafe, items[..|items| - 1], n);
    } else {
      assert items[..n] == items;
    }
  }

  method ParseDeclaredScopes(unsafe: Unsafe, raw: Json) returns (r: Result<seq<DeclaredScope>>)
    ensures r == Declared(unsafe, raw)
  {
    if !raw.Arr? { return Err(NotAnArray); }
    var items := raw.items;
    if |items| > MAX_SCOPES { return Err(TooMany); }
    var scopes := [];
    var seen: set<string> := {};
    for i := 0 to |items|
      invariant DeclareEntries(unsafe, items[..i]) == Ok(scopes) && seen == Names(scopes)
    {
      assert items[..i + 1][..i] == items[..i];
      var next := DeclareEntry(unsafe, scopes, items[i]);
      if next.Err? {
        DeclaredPrefixFails(unsafe, items, i + 1);
        return Err(next.error);
      }
      scopes, seen := scopes + [next.value], seen + {next.value.name};
    }
    assert items[..|items|] == items;
    r := Ok(scopes);
  }

  // ---------------------------------------------------------------- the document

  function ResourceName(unsafe: Unsafe, raw: Option<Json>): Result<Option<string>> {
    if raw.None? then Ok(None)
    else if !raw.value.Str? || raw.value.text == "" || |raw.value.text| > RESOURCE_NAME_MAX_LENGTH then Err(BadName)
    else if IsUnsafe(unsafe, raw.value.text) then Err(UnsafeText)
    else Ok(Some(raw.value.text))
  }

  /** A server that sends names only: they are all there is. */
  function FromNames(names: seq<string>): seq<DeclaredScope> {
    if names == [] then [] else FromNames(names[..|names| - 1]) + [DeclaredScope(names[|names| - 1], names[|names| - 1], false, false, false)]
  }

  function Scopes(unsafe: Unsafe, declared: Option<Json>, supported: seq<string>): Result<seq<DeclaredScope>> {
    if declared.None? then Ok(FromNames(supported))
    else match Declared(unsafe, declared.value)
      case Err(e) => Err(e)
      case Ok(scopes) =>
        if exists n :: n in supported && n !in Names(scopes) then Err(Undeclared)
        else if exists s :: s in scopes && s.stepUp && s.name in supported then Err(StepUpListed)
        else Ok(scopes)
  }

  predicate NamesIssuer(servers: Option<Json>, issuer: string) {
    servers.Some? && servers.value.Arr? && Str(issuer) in servers.value.items
  }

  predicate AllStrings(servers: Option<Json>) {
    servers.Some? && servers.value.Arr? && forall s :: s in servers.value.items ==> s.Str?
  }

  function Validate(unsafe: Unsafe, identifier: string, issuer: string, raw: Json): Result<ResourceMetadata> {
    if !raw.Obj? then Err(NotAnObject)
    else if Member(raw.members, "resource") != Some(Str(identifier)) then Err(WrongResource)
    else if !AllStrings(Member(raw.members, "authorization_servers")) then Err(BadServers)
    else if !NamesIssuer(Member(raw.members, "authorization_servers"), issuer) then Err(NotIssuer)
    else match ResourceName(unsafe, Member(raw.members, "resource_name"))
      case Err(e) => Err(e)
      case Ok(name) =>
        match Supported(Member(raw.members, "scopes_supported"))
        case Err(e) => Err(e)
        case Ok(supported) =>
          var declared := Member(raw.members, "asterism_scopes");
          match Scopes(unsafe, declared, supported)
          case Err(e) => Err(e)
          case Ok(scopes) =>
            if scopes == [] then Err(NoScopes)
            else Ok(ResourceMetadata(identifier, name, scopes, supported, declared.Some?))
  }

  // ---------------------------------------------------------------- what validation guarantees

  lemma {:induction false} ListedUnique(items: seq<Json>)
    ensures ListEntries(items).Ok? ==> NoRepeats(ListEntries(items).value.names)
  {
    if items != [] { ListedUnique(items[..|items| - 1]); }
  }

  lemma {:induction false} FromNamesWellFormed(names: seq<string>)
    ensures Names(FromNames(names)) == set n | n in names
    ensures NoRepeats(names) ==> UniqueNames(FromNames(names))
    ensures forall s :: s in FromNames(names) ==> !s.stepUp && Nested(s)
  {
    if names != [] {
      var front := names[..|names| - 1];
      assert names == front + [names[|names| - 1]];
      FromNamesWellFormed(front);
      NamesAppend(FromNames(front), DeclaredScope(names[|names| - 1], names[|names| - 1], false, false, false));
      if NoRepeats(names) {
        forall s | s in FromNames(front) ensures s.name != names[|names| - 1] {
          assert s.name in Names(FromNames(front));
        }
      }
    }
  }

  lemma {:induction false} DeclaredWellFormed(unsafe: Unsafe, items: seq<Json>)
    ensures DeclareEntries(unsafe, items).Ok? ==> UniqueNames(DeclareEntries(unsafe, items).value)
    ensures DeclareEntries(unsafe, items).Ok? ==> forall s :: s in DeclareEntries(unsafe, items).value ==> Nested(s)
  {
    if items != [] {
      DeclaredWellFormed(unsafe, items[..|items| - 1]);
      var before := DeclareEntries(unsafe, items[..|items| - 1]);
      if before.Ok? {
        var next := DeclareEntry(unsafe, before.value, items[|items| - 1]);
        if next.Ok? {
          assert next.value.name !in Names(before.value) && Nested(next.value);
          forall s | s in before.value ensures s.name != next.value.name {
            assert s.name in Names(before.value);
          }
        }
      }
    }
  }

  /** Whatever the server sent, an accepted document has unique names, nested flags, advertises
      only what it declares, and no step-up scope; it is about the identifier asked for
      and names this issuer. */
  lemma ValidIsWellFormed(unsafe: Unsafe, identifier: string, issuer: string, raw: Json)
    requires Validate(unsafe, identifier, issuer, raw).Ok?
    ensures var m := Validate(unsafe, identifier, issuer, raw).value;
      && WellFormed(m) && HidesStepUp(m) && m.scopes != [] && m.resource == identifier
      && raw.Obj? && NamesIssuer(Member(raw.members, "authorization_servers"), issuer)
  {
    var supported := Member(raw.members, "scopes_supported");
    var declared := Member(raw.members, "asterism_scopes");
    if supported.Some? { ListedUnique(supported.value.items); }
    if declared.Some? { DeclaredWellFormed(unsafe, declared.value.items); }
    FromNamesWellFormed(Supported(supported).value);
  }
}
