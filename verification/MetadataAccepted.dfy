/** Which documents the validator accepts, and as what, in terms of the document itself. */
module MetadataAccepted {
  import opened Basics
  import opened Metadata
  import opened MetadataDocument

  /** A scope token by the grammar of section 3.3 of RFC 6749, and none of the reserved ones. */
  predicate GoodName(s: string) {
    && |s| > 0 && s != "offline_access" && s != "openid"
    && forall i :: 0 <= i < |s| ==> s[i] as int == 0x21 || 0x23 <= s[i] as int <= 0x5B || 0x5D <= s[i] as int <= 0x7E
  }

  /** Text fit for display, of at most `max` characters. */
  predicate Plain(unsafe: Unsafe, text: string, max: nat) {
    0 < |text| <= max && forall c :: c in text ==> c !in unsafe
  }

  predicate IsFlag(members: map<string, Json>, key: string) {
    key in members ==> members[key].Bool?
  }

  predicate Sets(members: map<string, Json>, key: string) {
    key in members && members[key] == Bool(true)
  }

  /** The entry declares `s`; a fresh sign-in implies step-up, and step-up a short life. */
  predicate EntryAs(unsafe: Unsafe, entry: Json, s: DeclaredScope) {
    && entry.Obj?
    && var m := entry.members;
    && "name" in m && m["name"] == Str(s.name) && GoodName(s.name)
    && "description" in m && m["description"] == Str(s.description) && Plain(unsafe, s.description, 300)
    && IsFlag(m, "fresh_sign_in") && IsFlag(m, "step_up") && IsFlag(m, "short_lived")
    && (s.freshSignIn <==> Sets(m, "fresh_sign_in"))
    && (s.stepUp <==> Sets(m, "step_up") || Sets(m, "fresh_sign_in"))
    && (s.shortLived <==> Sets(m, "short_lived") || Sets(m, "step_up") || Sets(m, "fresh_sign_in"))
  }

  /** The entries declare these scopes, one each and in order, under different names. */
  ghost predicate DeclaredAs(unsafe: Unsafe, items: seq<Json>, scopes: seq<DeclaredScope>) {
    |items| == |scopes| && UniqueNames(scopes) && forall i :: 0 <= i < |items| ==> EntryAs(unsafe, items[i], scopes[i])
  }

  lemma TokenIsGood(s: string)
    ensures GoodName(s) <==> IsScopeToken(s) && s !in RESERVED_SCOPES
  {
    if IsScopeToken(s) && s !in RESERVED_SCOPES {
      assert forall i :: 0 <= i < |s| ==> s[i] in s;
    }
  }

  lemma NameIsGood(value: Option<Json>, name: string)
    ensures DeclaredName(value) == Ok(name) <==> value == Some(Str(name)) && GoodName(name)
  {
    if value.Some? && value.value.Str? { TokenIsGood(value.value.text); }
    TokenIsGood(name);
    hide IsScopeToken, GoodName;
  }

  lemma EntryIsAs(unsafe: Unsafe, before: seq<DeclaredScope>, entry: Json, s: DeclaredScope)
    ensures DeclareEntry(unsafe, before, entry) == Ok(s) <==> EntryAs(unsafe, entry, s) && s.name !in Names(before)
  {
    if entry.Obj? {
      var name := Member(entry.members, "name");
      forall n ensures DeclaredName(name) == Ok(n) <==> name == Some(Str(n)) && GoodName(n) { NameIsGood(name, n); }
      hide DeclaredName, GoodName;
    }
  }

  lemma UniqueAppend(scopes: seq<DeclaredScope>, s: DeclaredScope)
    ensures UniqueNames(scopes + [s]) <==> UniqueNames(scopes) && s.name !in Names(scopes)
  {
    if UniqueNames(scopes + [s]) {
      forall i, j | 0 <= i < j < |scopes| ensures scopes[i].name != scopes[j].name {
        assert (scopes + [s])[i].name != (scopes + [s])[j].name;
      }
      forall d | d in scopes ensures d.name != s.name {
        var i :| 0 <= i < |scopes| && scopes[i] == d;
        assert (scopes + [s])[i].name != (scopes + [s])[|scopes|].name;
      }
    }
    if UniqueNames(scopes) && s.name !in Names(scopes) {
      forall i, j | 0 <= i < j < |scopes + [s]| ensures (scopes + [s])[i].name != (scopes + [s])[j].name {
        if j == |scopes| { assert scopes[i] in scopes; }
      }
    }
  }

  lemma {:induction false} EntriesAreAs(unsafe: Unsafe, items: seq<Json>, scopes: seq<DeclaredScope>)
    ensures DeclareEntries(unsafe, items) == Ok(scopes) <==> DeclaredAs(unsafe, items, scopes)
  {
    hide DeclareEntry, EntryAs, UniqueNames;
    if items == [] {
      assert UniqueNames([]) by { UniqueEmpty(); }
    } else {
      var front, last := items[..|items| - 1], items[|items| - 1];
      var before := DeclareEntries(unsafe, front);
      if scopes != [] {
        var sFront, s := scopes[..|scopes| - 1], scopes[|scopes| - 1];
        assert scopes == sFront + [s] && items == front + [last];
        EntriesAreAs(unsafe, front, sFront);
        EntryIsAs(unsafe, sFront, last, s);
        UniqueAppend(sFront, s);
      }
    }
  }

  lemma UniqueEmpty()
    ensures UniqueNames([])
  {
  }

  // ---------------------------------------------------------------- scopes_supported

  /** The entries are different strings, each a good name or offline_access. */
  predicate Listable(items: seq<Json>) {
    && (forall i, j :: 0 <= i < j < |items| ==> items[i] != items[j])
    && (forall e :: e in items ==> e.Str? && (e.text == "offline_access" || GoodName(e.text)))
  }

  lemma {:induction false} ListedExactly(items: seq<Json>)
    ensures ListEntries(items).Ok? <==> Listable(items)
    ensures ListEntries(items).Ok? ==> (ListEntries(items).value.offline <==> Str("offline_access") in items)
    ensures ListEntries(items).Ok? ==> forall n :: n in ListEntries(items).value.names <==> Str(n) in items && n != "offline_access"
  {
    if items != [] {
      var front, last := items[..|items| - 1], items[|items| - 1];
      assert items == front + [last];
      ListedExactly(front);
      if last.Str? { NameIsGood(Some(last), last.text); }
      hide DeclaredName, GoodName, ListEntries;
      ListLast(front, last);
      ListableAppend(front, last);
    }
  }

  lemma ListLast(front: seq<Json>, last: Json)
    ensures ListEntries(front + [last]) ==
      match ListEntries(front)
      case Err(e) => Err(e)
      case Ok(l) => ListEntry(l, last)
  {
    assert (front + [last])[..|front|] == front;
  }

  lemma ListableAppend(front: seq<Json>, last: Json)
    ensures Listable(front + [last]) <==>
      Listable(front) && last !in front && last.Str? && (last.text == "offline_access" || GoodName(last.text))
  {
    var items := front + [last];
    if Listable(items) {
      forall i, j | 0 <= i < j < |front| ensures front[i] != front[j] { assert items[i] != items[j]; }
      forall e | e in front ensures e != last { var i :| 0 <= i < |front| && front[i] == e; assert items[i] != items[|front|]; }
      assert last in items;
      assert forall e :: e in front ==> e in items;
    }
  }

  // ---------------------------------------------------------------- the document

  predicate Has(members: map<string, Json>, key: string, value: Json) {
    key in members && members[key] == value
  }

  /** resource_name, when there is one, is plain text. */
  predicate NamedAs(unsafe: Unsafe, members: map<string, Json>, name: Option<string>) {
    if "resource_name" !in members then name.None?
    else name.Some? && members["resource_name"] == Str(name.value) && Plain(unsafe, name.value, 200)
  }

  /** The scopes it advertises, without offline_access. */
  ghost predicate AdvertisesAs(members: map<string, Json>, names: seq<string>) {
    if "scopes_supported" !in members then names == []
    else
      && members["scopes_supported"].Arr?
      && var items := members["scopes_supported"].items;
      && |items| <= 50 && Listable(items)
      && forall n :: n in names <==> Str(n) in items && n != "offline_access"
  }

  /** The scopes it declares, which are those it advertises where it declares none. */
  ghost predicate ScopesAs(unsafe: Unsafe, members: map<string, Json>, names: seq<string>, scopes: seq<DeclaredScope>) {
    if "asterism_scopes" !in members then |scopes| == |names| && forall i :: 0 <= i < |names| ==> scopes[i] == DeclaredScope(names[i], names[i], false, false, false)
    else
      && members["asterism_scopes"].Arr? && |members["asterism_scopes"].items| <= 50
      && DeclaredAs(unsafe, members["asterism_scopes"].items, scopes)
      && (forall n :: n in names ==> exists s :: s in scopes && s.name == n && !s.stepUp)
  }

  /** The document is about this resource, names this issuer among its authorization servers, and
      says `m`. */
  ghost predicate AcceptedAs(unsafe: Unsafe, identifier: string, issuer: string, raw: Json, m: ResourceMetadata) {
    && raw.Obj? && Has(raw.members, "resource", Str(identifier)) && m.resource == identifier
    && "authorization_servers" in raw.members && raw.members["authorization_servers"].Arr?
    && Str(issuer) in raw.members["authorization_servers"].items
    && (forall s :: s in raw.members["authorization_servers"].items ==> s.Str?)
    && NamedAs(unsafe, raw.members, m.resourceName)
    && AdvertisesAs(raw.members, m.scopesSupported)
    && ScopesAs(unsafe, raw.members, m.scopesSupported, m.scopes) && m.scopes != []
    && (m.hasScopeDescriptions <==> "asterism_scopes" in raw.members)
  }

  lemma {:induction false} FromNamesAre(names: seq<string>)
    ensures |FromNames(names)| == |names|
    ensures forall i :: 0 <= i < |names| ==> FromNames(names)[i] == DeclaredScope(names[i], names[i], false, false, false)
  {
    if names != [] { FromNamesAre(names[..|names| - 1]); }
  }

  lemma NameStage(unsafe: Unsafe, members: map<string, Json>, name: Option<string>)
    ensures ResourceName(unsafe, Member(members, "resource_name")) == Ok(name) <==> NamedAs(unsafe, members, name)
  {
  }

  lemma SupportedStage(members: map<string, Json>)
    ensures var r := Supported(Member(members, "scopes_supported"));
      && (r.Ok? ==> AdvertisesAs(members, r.value))
      && (forall names :: AdvertisesAs(members, names) ==> r.Ok? && forall n :: n in names <==> n in r.value)
  {
    if "scopes_supported" in members && members["scopes_supported"].Arr? { ListedExactly(members["scopes_supported"].items); }
    hide ListEntries, Listable;
  }

  lemma ScopesStage(unsafe: Unsafe, members: map<string, Json>, names: seq<string>, scopes: seq<DeclaredScope>)
    ensures Scopes(unsafe, Member(members, "asterism_scopes"), names) == Ok(scopes) <==> ScopesAs(unsafe, members, names, scopes)
  {
    FromNamesAre(names);
    if "asterism_scopes" in members && members["asterism_scopes"].Arr? {
      EntriesAreAs(unsafe, members["asterism_scopes"].items, scopes);
      if UniqueNames(scopes) { AdvertisedAndNotStepUp(names, scopes); }
    }
    if "asterism_scopes" !in members && ScopesAs(unsafe, members, names, scopes) {
      assert FromNames(names) == scopes;
    }
    hide DeclareEntries, FromNames, EntryAs;
  }

  lemma AdvertisedAndNotStepUp(names: seq<string>, scopes: seq<DeclaredScope>)
    requires UniqueNames(scopes)
    ensures (forall n :: n in names ==> exists s :: s in scopes && s.name == n && !s.stepUp) <==>
      (forall n :: n in names ==> n in Names(scopes)) && (forall s :: s in scopes && s.stepUp ==> s.name !in names)
  {
    forall s, t | s in scopes && t in scopes && s.name == t.name ensures s == t {
      LookupUnique(scopes, s);
      LookupUnique(scopes, t);
    }
  }

  /** A document is accepted as what it says, and only that way. */
  lemma WhatIsAccepted(unsafe: Unsafe, identifier: string, issuer: string, raw: Json)
    ensures Validate(unsafe, identifier, issuer, raw).Ok? ==> AcceptedAs(unsafe, identifier, issuer, raw, Validate(unsafe, identifier, issuer, raw).value)
  {
    hide ResourceName, Supported, Scopes, NamedAs, AdvertisesAs, ScopesAs;
    if Validate(unsafe, identifier, issuer, raw).Ok? {
      var m := Validate(unsafe, identifier, issuer, raw).value;
      NameStage(unsafe, raw.members, m.resourceName);
      SupportedStage(raw.members);
      ScopesStage(unsafe, raw.members, m.scopesSupported, m.scopes);
    }
  }

  /** And every document that says something acceptable is accepted. */
  lemma WhenADocumentIsAccepted(unsafe: Unsafe, identifier: string, issuer: string, raw: Json)
    ensures Validate(unsafe, identifier, issuer, raw).Ok? <==> exists m :: AcceptedAs(unsafe, identifier, issuer, raw, m)
  {
    WhatIsAccepted(unsafe, identifier, issuer, raw);
    hide ResourceName, Supported, Scopes, NamedAs, AdvertisesAs, ScopesAs;
    if m :| AcceptedAs(unsafe, identifier, issuer, raw, m) {
      NameStage(unsafe, raw.members, m.resourceName);
      SupportedStage(raw.members);
      var supported := Supported(Member(raw.members, "scopes_supported")).value;
      var scopes := SameNamesSameScopes(unsafe, raw.members, m.scopesSupported, supported, m.scopes);
      ScopesStage(unsafe, raw.members, supported, scopes);
    }
  }

  lemma SameNamesSameScopes(unsafe: Unsafe, members: map<string, Json>, names: seq<string>, other: seq<string>, scopes: seq<DeclaredScope>)
      returns (scopes': seq<DeclaredScope>)
    requires ScopesAs(unsafe, members, names, scopes) && scopes != [] && forall n :: n in names <==> n in other
    ensures ScopesAs(unsafe, members, other, scopes') && scopes' != []
  {
    if "asterism_scopes" in members {
      scopes' := scopes;
    } else {
      scopes' := FromNames(other);
      FromNamesAre(other);
      assert names[0] in other;
    }
  }
}
