/** buildProtectedResourceMetadata (express.ts), the resource server's side of the document,
    and its agreement with the proxy's validator. */
module MetadataBuilder {
  import opened Basics
  import opened Metadata
  import opened MetadataDocument
  import MetadataAccepted

  datatype ResourceScope = ResourceScope(name: string, description: string, stepUp: bool, shortLived: bool, freshSignIn: bool)

  datatype Options = Options(
    resourceName: Option<string>, scopes: Option<seq<ResourceScope>>, scopesSupported: Option<seq<string>>, offlineAccess: bool)

  datatype Config = Config(issuer: string, audience: string)

  datatype OptionError = InvalidName | BothScopes | InvalidScope | TooManyScopes | ReservedScope | DuplicateScope | InvalidDescription

  datatype Built = Document(json: Json) | Throws(reason: OptionError)

  /** `unsafe` as in validation; `blank` are the characters that trimming removes. */
  datatype Charset = Charset(unsafe: Unsafe, blank: set<char>)

  predicate AllBlank(cs: Charset, text: string) {
    forall c :: c in text ==> c in cs.blank
  }

  function CheckScope(cs: Charset, before: seq<ResourceScope>, s: ResourceScope): Option<OptionError> {
    if s.name in RESERVED_SCOPES then Some(ReservedScope)
    else if exists b :: b in before && b.name == s.name then Some(DuplicateScope)
    else if AllBlank(cs, s.description) || |s.description| > DESCRIPTION_MAX_LENGTH || IsUnsafe(cs.unsafe, s.description) then Some(InvalidDescription)
    else None
  }

  function CheckScopes(cs: Charset, scopes: seq<ResourceScope>): Option<OptionError> {
    if scopes == [] then None
    else
      var before := scopes[..|scopes| - 1];
      if CheckScopes(cs, before).Some? then CheckScopes(cs, before) else CheckScope(cs, before, scopes[|scopes| - 1])
  }

  function CheckSupported(names: seq<string>): Option<OptionError> {
    if exists n :: n in names && !IsScopeToken(n) then Some(InvalidScope)
    else if |names| > MAX_SCOPES then Some(TooManyScopes)
    else if "openid" in names then Some(ReservedScope)
    else if |set n | n in names| != |names| then Some(DuplicateScope)
    else None
  }

  function CheckDeclared(cs: Charset, scopes: seq<ResourceScope>): Option<OptionError> {
    if |scopes| > MAX_SCOPES then Some(TooManyScopes)
    else if exists s :: s in scopes && !IsScopeToken(s.name) then Some(InvalidScope)
    else CheckScopes(cs, scopes)
  }

  function Check(cs: Charset, o: Options): Option<OptionError> {
    if o.resourceName.Some? && (o.resourceName.value == "" || |o.resourceName.value| > RESOURCE_NAME_MAX_LENGTH || IsUnsafe(cs.unsafe, o.resourceName.value))
    then Some(InvalidName)
    else if o.scopes.Some? && o.scopesSupported.Some? then Some(BothScopes)
    else if o.scopesSupported.Some? then CheckSupported(o.scopesSupported.value)
    else if o.scopes.Some? then CheckDeclared(cs, o.scopes.value)
    else None
  }

  /** The names of the scopes that are neither step-up nor ask for a fresh sign-in. */
  function Advertisable(scopes: seq<ResourceScope>): seq<string> {
    if scopes == [] then [] else
      var last := scopes[|scopes| - 1];
      Advertisable(scopes[..|scopes| - 1]) + (if last.stepUp || last.freshSignIn then [] else [last.name])
  }

  function ListedNames(o: Options): Option<seq<string>> {
    if o.scopes.Some? then Some(Advertisable(o.scopes.value)) else o.scopesSupported
  }

  function Advertised(o: Options): Option<seq<string>> {
    if !o.offlineAccess then ListedNames(o)
    else Some(Drop(if ListedNames(o).None? then [] else ListedNames(o).value, {OFFLINE_ACCESS}) + [OFFLINE_ACCESS])
  }

  function Strs(names: seq<string>): seq<Json> {
    if names == [] then [] else Strs(names[..|names| - 1]) + [Str(names[|names| - 1])]
  }

  function ScopeJson(s: ResourceScope): Json {
    var base := map["name" := Str(s.name), "description" := Str(s.description)];
    var base := if s.stepUp then base["step_up" := Bool(true)] else base;
    var base := if s.shortLived then base["short_lived" := Bool(true)] else base;
    Obj(if s.freshSignIn then base["fresh_sign_in" := Bool(true)] else base)
  }

  function ScopesJson(scopes: seq<ResourceScope>): seq<Json> {
    if scopes == [] then [] else ScopesJson(scopes[..|scopes| - 1]) + [ScopeJson(scopes[|scopes| - 1])]
  }

  function DocumentOf(c: Config, o: Options): Json {
    var base := map["resource" := Str(c.audience), "authorization_servers" := Arr([Str(c.issuer)]), "bearer_methods_supported" := Arr([Str("header")])];
    var base := if o.resourceName.Some? then base["resource_name" := Str(o.resourceName.value)] else base;
    var base := if Advertised(o).Some? then base["scopes_supported" := Arr(Strs(Advertised(o).value))] else base;
    Obj(if o.scopes.Some? then base["asterism_scopes" := Arr(ScopesJson(o.scopes.value))] else base)
  }

  function Build(cs: Charset, c: Config, o: Options): Built {
    if Check(cs, o).Some? then Throws(Check(cs, o).value) else Document(DocumentOf(c, o))
  }

  lemma {:induction false} FirstFailure(cs: Charset, scopes: seq<ResourceScope>, n: nat)
    requires n <= |scopes| && CheckScopes(cs, scopes[..n]).Some?
    ensures CheckScopes(cs, scopes) == CheckScopes(cs, scopes[..n])
  {
    if n < |scopes| {
      assert scopes[..|scopes| - 1][..n] == scopes[..n];
      FirstFailure(cs, scopes[..|scopes| - 1], n);
    } else {
      assert scopes[..n] == scopes;
    }
  }

  method ValidateScopes(cs: Charset, scopes: seq<ResourceScope>) returns (error: Option<OptionError>)
    ensures error == CheckScopes(cs, scopes)
  {
    var seen: set<string> := {};
    for i := 0 to |scopes|
      invariant seen == (set s | s in scopes[..i] :: s.name)
      invariant CheckScopes(cs, scopes[..i]).None?
    {
      assert scopes[..i + 1][..i] == scopes[..i];
      var s := scopes[i];
      assert s.name in seen <==> exists b :: b in scopes[..i] && b.name == s.name;
      if s.name in RESERVED_SCOPES { error := Some(ReservedScope); }
      else if s.name in seen { error := Some(DuplicateScope); }
      else if AllBlank(cs, s.description) || |s.description| > DESCRIPTION_MAX_LENGTH || IsUnsafe(cs.unsafe, s.description) { error := Some(InvalidDescription); }
      else { error := None; }
      if error.Some? {
        FirstFailure(cs, scopes, i + 1);
        return;
      }
      assert scopes[..i + 1] == scopes[..i] + [s];
      seen := seen + {s.name};
    }
    assert scopes[..|scopes|] == scopes;
    error := None;
  }

  // ---------------------------------------------------------------- what the builder accepts

  predicate GoodDescription(cs: Charset, text: string) {
    MetadataAccepted.Plain(cs.unsafe, text, 300) && exists c :: c in text && c !in cs.blank
  }

  /** At most 50 scopes under different good names, each with a description that is not blank. */
  ghost predicate GoodScopes(cs: Charset, scopes: seq<ResourceScope>) {
    && |scopes| <= 50
    && (forall i, j :: 0 <= i < j < |scopes| ==> scopes[i].name != scopes[j].name)
    && (forall s :: s in scopes ==> MetadataAccepted.GoodName(s.name) && GoodDescription(cs, s.description))
  }

  /** At most 50 different scope tokens, which may include offline_access but not openid. */
  ghost predicate GoodNames(names: seq<string>) {
    && |names| <= 50 && NoRepeats(names)
    && forall n :: n in names ==> n == "offline_access" || MetadataAccepted.GoodName(n)
  }

  lemma {:induction false} ScopesAreGood(cs: Charset, scopes: seq<ResourceScope>)
    requires forall s :: s in scopes ==> IsScopeToken(s.name)
    ensures CheckScopes(cs, scopes).None? <==>
      && (forall i, j :: 0 <= i < j < |scopes| ==> scopes[i].name != scopes[j].name)
      && (forall s :: s in scopes ==> MetadataAccepted.GoodName(s.name) && GoodDescription(cs, s.description))
  {
    if scopes != [] {
      var before, last := scopes[..|scopes| - 1], scopes[|scopes| - 1];
      assert scopes == before + [last];
      ScopesAreGood(cs, before);
      MetadataAccepted.TokenIsGood(last.name);
      hide IsScopeToken, MetadataAccepted.GoodName;
      ScopeIsGood(cs, before, last);
    }
  }

  lemma ScopeIsGood(cs: Charset, before: seq<ResourceScope>, s: ResourceScope)
    requires IsScopeToken(s.name)
    ensures CheckScope(cs, before, s).None? <==>
      MetadataAccepted.GoodName(s.name) && GoodDescription(cs, s.description) && forall i :: 0 <= i < |before| ==> before[i].name != s.name
  {
    MetadataAccepted.TokenIsGood(s.name);
    hide IsScopeToken, MetadataAccepted.GoodName;
  }

  lemma {:induction false} DistinctSize(names: seq<string>)
    ensures |set n | n in names| <= |names|
    ensures |set n | n in names| == |names| <==> NoRepeats(names)
  {
    if names != [] {
      var front, last := names[..|names| - 1], names[|names| - 1];
      assert names == front + [last];
      DistinctSize(front);
      assert (set n | n in names) == (set n | n in front) + {last};
    }
  }

  lemma NamesAreGood(names: seq<string>)
    ensures CheckSupported(names).None? <==> GoodNames(names)
  {
    DistinctSize(names);
    forall n ensures IsScopeToken(n) && n != "openid" <==> n == "offline_access" || MetadataAccepted.GoodName(n) {
      MetadataAccepted.TokenIsGood(n);
    }
    hide IsScopeToken, MetadataAccepted.GoodName, NoRepeats;
  }

  /** Options are refused exactly when the name or a description is not fit for display, scopes are
      given in both forms, or there are too many, repeated or unusable ones. */
  lemma WhenOptionsAreAccepted(cs: Charset, c: Config, o: Options)
    ensures Build(cs, c, o).Document? <==>
      && (o.resourceName.Some? ==> MetadataAccepted.Plain(cs.unsafe, o.resourceName.value, 200))
      && (o.scopes.None? || o.scopesSupported.None?)
      && (o.scopes.Some? ==> GoodScopes(cs, o.scopes.value))
      && (o.scopesSupported.Some? ==> GoodNames(o.scopesSupported.value))
  {
    if o.scopesSupported.Some? { NamesAreGood(o.scopesSupported.value); }
    if o.scopes.Some? {
      forall s | s in o.scopes.value ensures MetadataAccepted.GoodName(s.name) ==> IsScopeToken(s.name) { MetadataAccepted.TokenIsGood(s.name); }
      if forall s :: s in o.scopes.value ==> IsScopeToken(s.name) { ScopesAreGood(cs, o.scopes.value); }
    }
    hide CheckScopes, CheckSupported, IsScopeToken, MetadataAccepted.GoodName, GoodDescription, GoodNames;
  }

  // ---------------------------------------------------------------- the round trip

  /** The scopes of the server itself, in order, as the proxy should understand them. */
  function Own(o: Options): seq<DeclaredScope> {
    if o.scopes.Some? then Understood(o.scopes.value)
    else FromNames(Drop(if o.scopesSupported.None? then [] else o.scopesSupported.value, {OFFLINE_ACCESS}))
  }

  /** The builder's scopes with every flag that a stronger one brings along. */
  function Understood(scopes: seq<ResourceScope>): seq<DeclaredScope> {
    if scopes == [] then [] else
      var s := scopes[|scopes| - 1];
      Understood(scopes[..|scopes| - 1])
      + [DeclaredScope(s.name, s.description, s.stepUp || s.freshSignIn, s.shortLived || s.stepUp || s.freshSignIn, s.freshSignIn)]
  }

  function AdvertisedCount(o: Options): nat {
    if Advertised(o).None? then 0 else |Advertised(o).value|
  }

  lemma {:induction false} DropAppend(xs: seq<string>, x: string, unwanted: set<string>)
    ensures Drop(xs + [x], unwanted) == Drop(xs, unwanted) + if x in unwanted then [] else [x]
  {
    if xs == [] {
      assert [x][1..] == [];
    } else {
      assert (xs + [x])[1..] == xs[1..] + [x];
      DropAppend(xs[1..], x, unwanted);
    }
  }

  lemma {:induction false} NameLists(l: Listed, name: string)
    requires IsScopeToken(name) && name != "openid" && (if name == OFFLINE_ACCESS then !l.offline else name !in l.names)
    ensures ListEntry(l, Str(name)) == Ok(if name == OFFLINE_ACCESS then l.(offline := true) else l.(names := l.names + [name]))
  {
    hide IsScopeToken;
  }

  ghost predicate SoundNames(names: seq<string>) {
    NoRepeats(names) && forall n :: n in names ==> IsScopeToken(n) && n != "openid"
  }

  lemma SoundPrefix(front: seq<string>, last: string)
    requires SoundNames(front + [last])
    ensures SoundNames(front) && last !in front && IsScopeToken(last) && last != "openid"
  {
    hide IsScopeToken;
    var names := front + [last];
    forall n | n in front ensures n in names {
    }
    assert names[|front|] == last;
    assert forall i :: 0 <= i < |front| ==> names[i] == front[i];
  }

  lemma {:induction false} StrsAppend(front: seq<string>, last: string)
    ensures Strs(front + [last]) == Strs(front) + [Str(last)]
  {
    assert (front + [last])[..|front|] == front;
  }

  lemma {:induction false} ListAppend(items: seq<Json>, entry: Json)
    requires ListEntries(items).Ok?
    ensures ListEntries(items + [entry]) == ListEntry(ListEntries(items).value, entry)
  {
    assert (items + [entry])[..|items|] == items;
  }

  /** Distinct, valid names parse to themselves, offline_access left out. */
  lemma {:induction false} NamesParse(names: seq<string>)
    requires SoundNames(names)
    ensures ListEntries(Strs(names)) == Ok(Listed(Drop(names, {OFFLINE_ACCESS}), OFFLINE_ACCESS in names))
    ensures |Strs(names)| == |names|
  {
    if names != [] {
      var front, last := names[..|names| - 1], names[|names| - 1];
      hide Drop, IsScopeToken, ListEntries, ListEntry, Strs, SoundNames;
      assert names == front + [last];
      SoundPrefix(front, last);
      NamesParse(front);
      NextNameParses(front, last, OFFLINE_ACCESS in front);
    }
  }

  lemma {:induction false} NextNameParses(front: seq<string>, last: string, listed: bool)
    requires ListEntries(Strs(front)) == Ok(Listed(Drop(front, {OFFLINE_ACCESS}), listed)) && listed == (OFFLINE_ACCESS in front)
    requires last !in front && IsScopeToken(last) && last != "openid" && |Strs(front)| == |front|
    ensures ListEntries(Strs(front + [last])) == Ok(Listed(Drop(front + [last], {OFFLINE_ACCESS}), OFFLINE_ACCESS in front + [last]))
    ensures |Strs(front + [last])| == |front + [last]|
  {
    hide Drop, IsScopeToken, ListEntries, ListEntry, Strs;
    DropAppend(front, last, {OFFLINE_ACCESS});
    StrsAppend(front, last);
    ListAppend(Strs(front), Str(last));
    NameLists(Listed(Drop(front, {OFFLINE_ACCESS}), listed), last);
    assert Drop(front, {OFFLINE_ACCESS}) + [] == Drop(front, {OFFLINE_ACCESS});
    assert OFFLINE_ACCESS in front + [last] <==> listed || last == OFFLINE_ACCESS;
  }

  lemma ScopeParses(unsafe: Unsafe, before: seq<DeclaredScope>, s: ResourceScope)
    requires IsScopeToken(s.name) && s.name !in RESERVED_SCOPES && s.name !in Names(before)
    requires s.description != "" && |s.description| <= DESCRIPTION_MAX_LENGTH && !IsUnsafe(unsafe, s.description)
    ensures DeclareEntry(unsafe, before, ScopeJson(s)) ==
      Ok(DeclaredScope(s.name, s.description, s.stepUp || s.freshSignIn, s.shortLived || s.stepUp || s.freshSignIn, s.freshSignIn))
  {
    var members := ScopeJson(s).members;
    assert Member(members, "name") == Some(Str(s.name)) && Member(members, "description") == Some(Str(s.description));
    assert OptionalFlag(members, "fresh_sign_in") == Ok(s.freshSignIn);
    assert OptionalFlag(members, "step_up") == Ok(s.stepUp);
    assert OptionalFlag(members, "short_lived") == Ok(s.shortLived);
    hide OptionalFlag, Member, ScopeJson, IsUnsafe, IsScopeToken;
  }

  lemma {:induction false} UnderstoodNames(scopes: seq<ResourceScope>)
    ensures Names(Understood(scopes)) == set s | s in scopes :: s.name
    ensures |Understood(scopes)| == |scopes|
  {
    if scopes != [] {
      var front := scopes[..|scopes| - 1];
      assert scopes == front + [scopes[|scopes| - 1]];
      UnderstoodNames(front);
      NamesAppend(Understood(front), Understood(scopes)[|front|]);
    }
  }

  lemma {:induction false} ScopesParse(cs: Charset, scopes: seq<ResourceScope>)
    requires CheckScopes(cs, scopes).None? && forall s :: s in scopes ==> IsScopeToken(s.name)
    ensures DeclareEntries(cs.unsafe, ScopesJson(scopes)) == Ok(Understood(scopes)) && |ScopesJson(scopes)| == |scopes|
  {
    if scopes != [] {
      var front, last := scopes[..|scopes| - 1], scopes[|scopes| - 1];
      ScopesParse(cs, front);
      assert ScopesJson(scopes)[..|scopes| - 1] == ScopesJson(front);
      UnderstoodNames(front);
      ScopeParses(cs.unsafe, Understood(front), last);
      hide ScopeJson, DeclareEntry;
    }
  }

  lemma {:induction false} AdvertisableNames(cs: Charset, scopes: seq<ResourceScope>)
    requires CheckScopes(cs, scopes).None?
    ensures NoRepeats(Advertisable(scopes)) && |Advertisable(scopes)| <= |scopes|
    ensures forall n :: n in Advertisable(scopes) ==> n !in RESERVED_SCOPES && exists s :: s in scopes && s.name == n && !s.stepUp && !s.freshSignIn
  {
    if scopes != [] {
      var front, last := scopes[..|scopes| - 1], scopes[|scopes| - 1];
      assert scopes == front + [last];
      AdvertisableNames(cs, front);
      assert last.name !in Advertisable(front);
      forall n | n in Advertisable(scopes) ensures n !in RESERVED_SCOPES && exists s :: s in scopes && s.name == n && !s.stepUp && !s.freshSignIn {
        if n in Advertisable(front) {
          var s :| s in front && s.name == n && !s.stepUp && !s.freshSignIn;
          assert s in scopes;
        } else {
          assert last in scopes;
        }
      }
    }
  }

  lemma {:induction false} DistinctBySize(names: seq<string>)
    ensures |set n | n in names| == |names| <==> NoRepeats(names)
    ensures |set n | n in names| <= |names|
  {
    if names != [] {
      var front, last := names[..|names| - 1], names[|names| - 1];
      assert names == front + [last];
      DistinctBySize(front);
      assert (set n | n in names) == (set n | n in front) + {last};
      if last in front {
        var i :| 0 <= i < |front| && front[i] == last;
        assert names[i] == names[|names| - 1];
      }
      if NoRepeats(front) && last !in front {
        assert NoRepeats(names);
      }
    }
  }

  lemma ListedIsSound(cs: Charset, o: Options)
    requires Check(cs, o).None? && ListedNames(o).Some?
    ensures SoundNames(ListedNames(o).value)
    ensures o.scopes.Some? ==> OFFLINE_ACCESS !in ListedNames(o).value
  {
    hide IsScopeToken, IsUnsafe;
    if o.scopes.Some? { AdvertisableNames(cs, o.scopes.value); } else { DistinctBySize(o.scopesSupported.value); }
  }

  /** Appending offline_access to what is listed without it. */
  lemma OfflineIsSound(listed: seq<string>)
    requires SoundNames(listed)
    ensures SoundNames(Drop(listed, {OFFLINE_ACCESS}) + [OFFLINE_ACCESS])
    ensures Drop(Drop(listed, {OFFLINE_ACCESS}) + [OFFLINE_ACCESS], {OFFLINE_ACCESS}) == Drop(listed, {OFFLINE_ACCESS})
  {
    var left := Drop(listed, {OFFLINE_ACCESS});
    assert SoundNames(left) by { DropKeepsDistinct(listed); hide IsScopeToken; }
    assert OFFLINE_ACCESS !in left;
    assert IsScopeToken(OFFLINE_ACCESS) && OFFLINE_ACCESS != "openid";
    hide Drop, IsScopeToken;
    DropNothing(left);
    DropAppend(left, OFFLINE_ACCESS, {OFFLINE_ACCESS});
    SoundAppend(left, OFFLINE_ACCESS);
    hide SoundNames;
  }

  lemma SoundAppend(names: seq<string>, name: string)
    requires SoundNames(names) && name !in names && IsScopeToken(name) && name != "openid"
    ensures SoundNames(names + [name])
  {
    hide IsScopeToken;
  }

  /** What the builder advertises is well-formed for the validator's list. */
  lemma AdvertisedIsSound(cs: Charset, o: Options)
    requires Check(cs, o).None? && Advertised(o).Some?
    ensures SoundNames(Advertised(o).value)
    ensures o.scopes.Some? ==> Drop(Advertised(o).value, {OFFLINE_ACCESS}) == Advertisable(o.scopes.value)
    ensures o.scopes.None? ==> Drop(Advertised(o).value, {OFFLINE_ACCESS}) == Drop(if o.scopesSupported.None? then [] else o.scopesSupported.value, {OFFLINE_ACCESS})
  {
    hide Check, SoundNames, Drop, Advertisable;
    var listed := if ListedNames(o).None? then [] else ListedNames(o).value;
    NothingIsSound();
    if ListedNames(o).Some? { ListedIsSound(cs, o); }
    OfflineIsSound(listed);
    if o.scopes.Some? { DropNothing(listed); }
  }

  lemma NothingIsSound()
    ensures SoundNames([])
  {
  }

  lemma {:induction false} DropNothing(xs: seq<string>)
    requires OFFLINE_ACCESS !in xs
    ensures Drop(xs, {OFFLINE_ACCESS}) == xs
  {
    if xs != [] { DropNothing(xs[1..]); }
  }

  lemma {:induction false} DropKeepsDistinct(xs: seq<string>)
    requires NoRepeats(xs)
    ensures NoRepeats(Drop(xs, {OFFLINE_ACCESS}))
  {
    if xs != [] {
      assert forall i, j :: 0 <= i < j < |xs[1..]| ==> xs[1..][i] == xs[i + 1] && xs[1..][j] == xs[j + 1];
      DropKeepsDistinct(xs[1..]);
      forall i | 0 <= i < |xs[1..]| ensures xs[1..][i] != xs[0] {
        assert xs[0] != xs[i + 1];
      }
    }
  }

  /** The scopes parse as intended and pass the checks against the list. */
  lemma ScopesAgree(cs: Charset, o: Options)
    requires Check(cs, o).None? && o.scopes.Some?
    ensures Scopes(cs.unsafe, Some(Arr(ScopesJson(o.scopes.value))), Advertisable(o.scopes.value)) == Ok(Own(o))
  {
    var scopes := o.scopes.value;
    ScopesParse(cs, scopes);
    UnderstoodNames(scopes);
    AdvertisableNames(cs, scopes);
    DeclaredWellFormed(cs.unsafe, ScopesJson(scopes));
    forall s | s in Understood(scopes) && s.stepUp ensures s.name !in Advertisable(scopes) {
      OnlyPlainAdvertised(scopes, s);
    }
  }

  lemma {:induction false} UnderstoodMember(scopes: seq<ResourceScope>, r: ResourceScope)
    requires r in scopes
    ensures DeclaredScope(r.name, r.description, r.stepUp || r.freshSignIn, r.shortLived || r.stepUp || r.freshSignIn, r.freshSignIn) in Understood(scopes)
  {
    var front := scopes[..|scopes| - 1];
    assert scopes == front + [scopes[|scopes| - 1]];
    if r in front { UnderstoodMember(front, r); }
  }

  lemma {:induction false} AdvertisedFrom(scopes: seq<ResourceScope>, name: string)
    requires name in Advertisable(scopes)
    ensures exists r :: r in scopes && r.name == name && !r.stepUp && !r.freshSignIn
  {
    var front, last := scopes[..|scopes| - 1], scopes[|scopes| - 1];
    assert scopes == front + [last];
    if name in Advertisable(front) {
      AdvertisedFrom(front, name);
      var r :| r in front && r.name == name && !r.stepUp && !r.freshSignIn;
      assert r in scopes;
    } else {
      assert last in scopes;
    }
  }

  /** Names being unique, a step-up scope is not the plain one advertised under its name. */
  lemma OnlyPlainAdvertised(scopes: seq<ResourceScope>, s: DeclaredScope)
    requires UniqueNames(Understood(scopes)) && s in Understood(scopes) && s.stepUp
    ensures s.name !in Advertisable(scopes)
  {
    if s.name in Advertisable(scopes) {
      AdvertisedFrom(scopes, s.name);
      var r :| r in scopes && r.name == s.name && !r.stepUp && !r.freshSignIn;
      UnderstoodMember(scopes, r);
      LookupUnique(Understood(scopes), s);
      LookupUnique(Understood(scopes), DeclaredScope(r.name, r.description, r.stepUp || r.freshSignIn, r.shortLived || r.stepUp || r.freshSignIn, r.freshSignIn));
    }
  }

  lemma DocumentMembers(c: Config, o: Options)
    ensures DocumentOf(c, o).Obj?
    ensures var m := DocumentOf(c, o).members;
      && Member(m, "resource") == Some(Str(c.audience))
      && Member(m, "authorization_servers") == Some(Arr([Str(c.issuer)]))
      && Member(m, "resource_name") == (if o.resourceName.Some? then Some(Str(o.resourceName.value)) else None)
      && Member(m, "scopes_supported") == (if Advertised(o).Some? then Some(Arr(Strs(Advertised(o).value))) else None)
      && Member(m, "asterism_scopes") == (if o.scopes.Some? then Some(Arr(ScopesJson(o.scopes.value))) else None)
  {
    hide Advertised, Strs, ScopesJson;
  }

  /** What validation makes of the list the builder advertises. */
  lemma SupportedAgrees(cs: Charset, o: Options)
    requires Check(cs, o).None?
    ensures Supported(if Advertised(o).Some? then Some(Arr(Strs(Advertised(o).value))) else None) ==
      if AdvertisedCount(o) > MAX_SCOPES then Err(TooMany)
      else Ok(if o.scopes.Some? then Advertisable(o.scopes.value) else Drop(if o.scopesSupported.None? then [] else o.scopesSupported.value, {OFFLINE_ACCESS}))
  {
    if Advertised(o).Some? {
      AdvertisedIsSound(cs, o);
      NamesParse(Advertised(o).value);
    }
    hide Check, ListEntries, Strs;
  }

  /** A document built from accepted options is accepted by the proxy, under the issuer and
      identifier it was built for, exactly when the server has a scope of its own and at most
      50 entries are advertised, offline_access counted. It then parses back to the same name
      and the same scopes in order, with the flag implications applied. */
  lemma BuiltDocumentsValidate(cs: Charset, c: Config, o: Options)
    requires Check(cs, o).None?
    ensures var parsed := Validate(cs.unsafe, c.audience, c.issuer, Build(cs, c, o).json);
      && (parsed.Ok? <==> Own(o) != [] && AdvertisedCount(o) <= 50)
      && (parsed.Ok? ==>
            && parsed.value.scopes == Own(o) && parsed.value.resource == c.audience && parsed.value.resourceName == o.resourceName
            && parsed.value.hasScopeDescriptions == o.scopes.Some?
            && parsed.value.scopesSupported == (if o.scopes.Some? then Advertisable(o.scopes.value) else Drop(if o.scopesSupported.None? then [] else o.scopesSupported.value, {OFFLINE_ACCESS})))
  {
    DocumentMembers(c, o);
    SupportedAgrees(cs, o);
    if o.scopes.Some? { ScopesAgree(cs, o); }
    NameAgrees(cs, o);
    hide Check, DocumentOf, Supported, Scopes, ResourceName, Advertised, Strs, ScopesJson, Member;
  }

  lemma NameAgrees(cs: Charset, o: Options)
    requires Check(cs, o).None?
    ensures ResourceName(cs.unsafe, if o.resourceName.Some? then Some(Str(o.resourceName.value)) else None) == Ok(o.resourceName)
  {
    hide CheckSupported, CheckDeclared;
  }

  /** offline_access is advertised exactly when asked for in either way, and everything else only as
      listed. */
  lemma WhatIsAdvertised(c: Config, o: Options, name: string)
    ensures var m := DocumentOf(c, o).members;
      var listed := exists names :: ListedNames(o) == Some(names) && name in names;
      && ("scopes_supported" in m <==> o.offlineAccess || o.scopes.Some? || o.scopesSupported.Some?)
      && ("scopes_supported" in m ==> m["scopes_supported"].Arr?)
      && ("scopes_supported" in m ==> (Str(name) in m["scopes_supported"].items <==> listed || (o.offlineAccess && name == "offline_access")))
      && (o.scopes.Some? ==> (listed <==> exists s :: s in o.scopes.value && s.name == name && !s.stepUp && !s.freshSignIn))
  {
    if Advertised(o).Some? { StrsMember(Advertised(o).value, name); }
    if o.scopes.Some? { AdvertisableMember(o.scopes.value, name); }
    hide Strs, Advertisable, ScopesJson;
  }

  lemma {:induction false} StrsMember(names: seq<string>, name: string)
    ensures Str(name) in Strs(names) <==> name in names
  {
    if names != [] {
      assert names == names[..|names| - 1] + [names[|names| - 1]];
      StrsMember(names[..|names| - 1], name);
    }
  }

  lemma {:induction false} AdvertisableMember(scopes: seq<ResourceScope>, name: string)
    ensures name in Advertisable(scopes) <==> exists s :: s in scopes && s.name == name && !s.stepUp && !s.freshSignIn
  {
    if scopes != [] {
      assert scopes == scopes[..|scopes| - 1] + [scopes[|scopes| - 1]];
      AdvertisableMember(scopes[..|scopes| - 1], name);
    }
  }
}
