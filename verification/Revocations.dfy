/** What a user, an operator and pruning revoke or remove, row by row. */
module Revocations {
  import opened Basics
  import opened ResourceRegistry
  import opened Tables
  import opened World
  import opened Protocol

  /** The grants in `keys` are stamped where they were live, and no other row changes. */
  ghost predicate GrantsStamped(before: map<GrantKey, Grant>, after: map<GrantKey, Grant>, keys: iset<GrantKey>, now: Time) {
    && after.Keys == before.Keys
    && forall k :: k in before ==>
         after[k] == if k in keys && before[k].revokedAt.None? then before[k].(revokedAt := Some(now)) else before[k]
  }

  ghost predicate TokensStamped(before: TokenTable, after: TokenTable, selected: iset<Hash>, now: Time) {
    && after.Keys == before.Keys
    && forall h :: h in before ==>
         after[h] == if h in selected && before[h].revokedAt.None? then before[h].(revokedAt := Some(now)) else before[h]
  }

  ghost predicate OnlyStamps(w: World, w': World, keys: iset<GrantKey>, selected: iset<Hash>) {
    && w' == w.(db := w.db.(grants := w'.db.grants, tokens := w'.db.tokens))
    && GrantsStamped(w.db.grants, w'.db.grants, keys, w.now) && TokensStamped(w.db.tokens, w'.db.tokens, selected, w.now)
  }

  /** A user's revocation stamps the grant anew, and each of its live tokens. */
  lemma WhatAUserRevokes(w: World, key: GrantKey)
    ensures var w' := Apply(w, Protocol.RevokeGrant(key));
      if key !in w.db.grants then w' == w
      else
        && w' == w.(db := w.db.(grants := w.db.grants[key := w.db.grants[key].(revokedAt := Some(w.now))], tokens := w'.db.tokens))
        && TokensStamped(w.db.tokens, w'.db.tokens, (iset h | h in w.db.tokens && w.db.tokens[h].grant == key), w.now)
  {
  }

  /** A denial revokes every grant of the clients that is live, with its tokens; afterwards they have no
      live grant, and what live token is left belongs to a grant revoked before. */
  lemma WhatADenialRevokes(w: World, clients: set<string>)
    ensures var w' := Apply(w, DenyClients(clients));
      var live := iset k | k in w.db.grants && w.db.grants[k].revokedAt.None? && k.client in clients;
      && OnlyStamps(w, w', live, iset h | h in w.db.tokens && w.db.tokens[h].grant in live)
      && (forall k :: k in w'.db.grants && k.client in clients ==> w'.db.grants[k].revokedAt.Some?)
      && (forall h :: h in w'.db.tokens && w'.db.tokens[h].revokedAt.None? && w'.db.tokens[h].grant in w.db.grants && w'.db.tokens[h].grant.client in clients ==>
            w.db.grants[w'.db.tokens[h].grant].revokedAt.Some?)
  {
  }

  /** Removing a resource server or deactivating a user leaves no live grant or token of theirs. */
  lemma WhatARemovalRevokes(w: World, resource: string)
    ensures var w' := Apply(w, RemoveServer(resource));
      && OnlyStamps(w, w', iset k: GrantKey | k.resource == resource, iset h | h in w.db.tokens && w.db.tokens[h].resource == resource)
      && (forall k :: k in w'.db.grants && k.resource == resource ==> w'.db.grants[k].revokedAt.Some?)
      && (forall h :: h in w'.db.tokens && w'.db.tokens[h].resource == resource ==> w'.db.tokens[h].revokedAt.Some?)
  {
  }

  lemma WhatADeactivationRevokes(w: World, user: string)
    ensures var w' := Apply(w, DeactivateUser(user));
      && OnlyStamps(w, w', iset k: GrantKey | k.user == user, iset h | h in w.db.tokens && w.db.tokens[h].user == user)
      && (forall k :: k in w'.db.grants && k.user == user ==> w'.db.grants[k].revokedAt.Some?)
      && (forall h :: h in w'.db.tokens && w'.db.tokens[h].user == user ==> w'.db.tokens[h].revokedAt.Some?)
  {
  }

  /** Pruning removes exactly the rows of its table that expired before its cutoff. */
  lemma WhatPruningRemoves(w: World, table: Pruned, cutoff: Time)
    requires cutoff <= w.now
    ensures var w' := Apply(w, Protocol.Prune(table, cutoff));
      var before, after := w.db, w'.db;
      && w' == w.(db := before.(requests := after.requests, codes := after.codes, devices := after.devices, tokens := after.tokens))
      && (forall h :: h in after.requests <==> h in before.requests && (table == Requests ==> before.requests[h].expiresAt >= cutoff))
      && (forall h :: h in after.codes <==> h in before.codes && (table == Codes ==> before.codes[h].expiresAt >= cutoff))
      && (forall h :: h in after.devices <==> h in before.devices && (table == Devices ==> before.devices[h].expiresAt >= cutoff))
      && (forall h :: h in after.tokens <==> h in before.tokens && (table == Tokens ==> before.tokens[h].expiresAt >= cutoff))
      && (forall h :: h in after.requests ==> after.requests[h] == before.requests[h])
      && (forall h :: h in after.codes ==> after.codes[h] == before.codes[h])
      && (forall h :: h in after.devices ==> after.devices[h] == before.devices[h])
      && (forall h :: h in after.tokens ==> after.tokens[h] == before.tokens[h])
  {
  }
}
