/** The transactions of token.ts, consent.ts, grants.ts and cleanup.ts as they run: statement
    by statement on the tables, and rolled back as a whole when one of them fails. Each is
    proved to have the effect that the protocol's steps use. */
module Database {
  import opened Basics
  import opened ResourceRegistry
  import opened Tables
  import Protocol

  class Store {
    var requests: map<Hash, AuthRequest>
    var codes: map<Hash, AuthCode>
    var devices: map<Hash, DeviceCode>
    var grants: map<GrantKey, Grant>
    var tokens: TokenTable

    function Snapshot(): Db
      reads this
    {
      Db(requests, codes, devices, grants, tokens)
    }

    constructor ()
      ensures Snapshot() == Db(map[], map[], map[], map[], map[])
    {
      requests, codes, devices, grants, tokens := map[], map[], map[], map[], map[];
    }

    /** Undoes every statement of a transaction. */
    method Rollback(to: Db)
      modifies this
      ensures Snapshot() == to
    {
      requests, codes, devices, grants, tokens := to.requests, to.codes, to.devices, to.grants, to.tokens;
    }

    /** The conditional update that claims a code, and how many rows it changed. */
    method MarkConsumed(code: Hash, now: Time) returns (count: nat)
      modifies this`codes
      ensures count == if code in old(codes) && old(codes)[code].consumedAt.None? then 1 else 0
      ensures codes == if count == 1 then old(codes)[code := old(codes)[code].(consumedAt := Some(now))] else old(codes)
    {
      if code !in codes || codes[code].consumedAt.Some? { return 0; }
      codes := codes[code := codes[code].(consumedAt := Some(now))];
      count := 1;
    }

    /** issueRefreshToken; the insert may fail. */
    method IssueRefreshToken(user: string, client: string, resource: string, scopes: seq<string>, grant: GrantKey,
                             via: Option<Approval>, reg: Registry, drawn: Hash, now: Time, works: bool) returns (ok: bool)
      modifies this`tokens
      ensures ok == works
      ensures tokens == if ok then old(tokens)[drawn := NewToken(reg, user, client, resource, scopes, grant, via, now)] else old(tokens)
    {
      if !works { return false; }
      tokens := tokens[drawn := RefreshToken(user, client, resource, RefreshableScopes(reg, resource, scopes), grant, now + REFRESH_TOKEN_TTL_MS, None, None, via)];
      ok := true;
    }

    /** The code-exchange transaction. When the refresh token cannot be issued nothing has
        happened, and the code can be exchanged again. */
    method ExchangeCode(code: Hash, entry: AuthCode, reg: Registry, drawn: Hash, now: Time, works: bool) returns (ok: bool, claim: Claim)
      modifies this
      ensures ok ==> (Snapshot(), claim) == ClaimCode(old(Snapshot()), code, entry, reg, drawn, now)
      ensures !ok ==> Snapshot() == old(Snapshot())
      ensures works ==> ok
    {
      var before := Snapshot();
      var count := MarkConsumed(code, now);
      if count == 0 { return true, Lost; }
      if OFFLINE_ACCESS !in entry.scopes { return true, Claimed(None); }
      var issued := IssueRefreshToken(entry.user, entry.client, entry.resource, entry.scopes, entry.grant, entry.via, reg, drawn, now, works);
      if !issued {
        Rollback(before);
        return false, Lost;
      }
      return true, Claimed(Some(drawn));
    }

    /** The device-code transaction. */
    method RedeemDevice(device: Hash, entry: DeviceCode, user: string, reg: Registry, drawn: Hash, now: Time, works: bool) returns (ok: bool, claim: Claim)
      modifies this
      ensures ok ==> (Snapshot(), claim) == ClaimDevice(old(Snapshot()), device, entry, user, reg, drawn, now)
      ensures !ok ==> Snapshot() == old(Snapshot())
      ensures works ==> ok
    {
      var before := Snapshot();
      if device !in devices || devices[device].status != Approved { return true, Lost; }
      devices := devices[device := devices[device].(status := Consumed)];
      var key := GrantKey(user, entry.client, entry.resource);
      if key !in grants || grants[key].revokedAt.Some? { return true, GrantRevoked; }
      if OFFLINE_ACCESS !in entry.scopes { return true, Claimed(None); }
      var issued := IssueRefreshToken(user, entry.client, entry.resource, entry.scopes, key, entry.via, reg, drawn, now, works);
      if !issued {
        Rollback(before);
        return false, Lost;
      }
      return true, Claimed(Some(drawn));
    }

    /** The rotation transaction. */
    method Rotate(token: Hash, entry: RefreshToken, scopes: seq<string>, drawn: Hash, works: bool) returns (ok: bool, rotated: bool)
      modifies this
      ensures ok ==> rotated == Unclaimed(old(tokens), token)
      ensures ok ==> Snapshot() == old(Snapshot()).(tokens := RotateToken(old(tokens), token, entry, scopes, drawn))
      ensures !ok ==> Snapshot() == old(Snapshot())
      ensures works ==> ok
    {
      var before := Snapshot();
      if !Unclaimed(tokens, token) { return true, false; }
      tokens := tokens[token := tokens[token].(rotatedTo := Some(drawn))];
      if !works {
        Rollback(before);
        return false, false;
      }
      tokens := tokens[drawn := RefreshToken(entry.user, entry.client, entry.resource, scopes, entry.grant, entry.expiresAt, None, None, entry.via)];
      return true, true;
    }

    /** revokeDescendantRefreshTokens: `count` is what the replay counter records. */
    method RevokeDescendants(grant: GrantKey, now: Time) returns (count: nat)
      modifies this`tokens
      ensures tokens == RevokeTokens(old(tokens), TokensOfGrant(old(tokens), grant), now)
      ensures count == |set h | h in old(tokens) && old(tokens)[h].grant == grant && old(tokens)[h].revokedAt.None?|
    {
      var live := set h | h in tokens && tokens[h].grant == grant && tokens[h].revokedAt.None?;
      count := |live|;
      var rest := live;
      while rest != {}
        invariant rest <= live && tokens.Keys == old(tokens).Keys
        invariant forall h :: h in tokens ==> tokens[h] == if h in live && h !in rest then old(tokens)[h].(revokedAt := Some(now)) else old(tokens)[h]
        decreases rest
      {
        var h :| h in rest;
        tokens := tokens[h := tokens[h].(revokedAt := Some(now))];
        rest := rest - {h};
      }
      assert tokens == RevokeTokens(old(tokens), TokensOfGrant(old(tokens), grant), now);
    }

    // -------------------------------------------------------------- consent

    /** consumeRequest: of two completions only one is told true. */
    method Consume(handle: Hash) returns (first: bool)
      modifies this`requests
      ensures first <==> handle in old(requests)
      ensures requests == old(requests) - {handle}
    {
      first := handle in requests;
      requests := requests - {handle};
    }

    /** upsertGrant: read, merge, write. */
    method UpsertGrant(key: GrantKey, req: AuthRequest, server: Server, reg: Registry)
      modifies this`grants
      ensures grants == old(grants)[key := MergedGrant(old(grants), key, req, server, reg)]
      ensures key in grants && grants[key].revokedAt.None? && forall s :: s in grants[key].scopes ==> !IsShortLivedScope(reg, req.resource, s)
      ensures forall c :: c in grants[key].releasedClaims ==>
        (key in old(grants) && c in old(grants)[key].releasedClaims) || (c in req.shownClaims && c in server.releaseClaims)
    {
      var live := key in grants && grants[key].revokedAt.None?;
      var before := if live then grants[key].scopes else [];
      var scopes := before + req.scopes;
      var merged := Dedupe(Drop(scopes, set s | s in scopes && IsShortLivedScope(reg, req.resource, s)));
      var stillReleased := set c | c in server.releaseClaims;
      var shown := Keep(req.shownClaims, stillReleased);
      var claims := Dedupe((if live then grants[key].releasedClaims else []) + shown);
      grants := grants[key := Grant(merged, claims, None)];
    }

    /** issueAuthCodeAndRedirect */
    method IssueCode(handle: Hash, req: AuthRequest, user: string, server: Server, reg: Registry, drawn: Hash, now: Time, works: bool) returns (ok: bool, issued: bool)
      modifies this
      ensures ok ==> (Snapshot(), issued) == ApproveRedirect(old(Snapshot()), handle, req, user, server, reg, drawn, now)
      ensures !ok ==> Snapshot() == old(Snapshot())
      ensures works ==> ok
    {
      var before := Snapshot();
      var first := Consume(handle);
      if !first {
        assert requests == old(requests);
        return true, false;
      }
      var key := GrantKey(user, req.client, req.resource);
      UpsertGrant(key, req, server, reg);
      if !works {
        Rollback(before);
        return false, false;
      }
      codes := codes[drawn := AuthCode(user, req.client, req.resource, req.scopes, req.redirectUri, req.challenge, key, now + AUTH_CODE_TTL_MS, None, Some(Approval(handle, req)))];
      return true, true;
    }

    /** completeDeviceFlow */
    method CompleteFlow(handle: Hash, req: AuthRequest, userCode: Hash, granting: Option<(string, Server)>, reg: Registry, now: Time) returns (outcome: Completion)
      modifies this
      ensures (Snapshot(), outcome) == CompleteDevice(old(Snapshot()), handle, req, userCode, granting, reg, now)
    {
      var first := Consume(handle);
      if !first {
        assert requests == old(requests);
        return AlreadyConsumed;
      }
      var rows := PendingDevices(devices, userCode, req.client, now);
      if rows == {} { return Stale; }
      match granting
      case None =>
        devices := map d | d in devices :: if d in rows then devices[d].(status := Denied) else devices[d];
        outcome := Completed;
      case Some((user, server)) =>
        devices := map d | d in devices ::
          if d in rows then devices[d].(status := Approved, user := Some(user), via := Some(Approval(handle, req))) else devices[d];
        UpsertGrant(GrantKey(user, req.client, req.resource), req, server, reg);
      outcome := Completed;
    }

    // -------------------------------------------------------------- revocation and cleanup

    method RevokeGrant(key: GrantKey, now: Time)
      requires key in grants
      modifies this
      ensures Snapshot() == RevokeOneGrant(old(Snapshot()), key, now)
    {
      grants := grants[key := grants[key].(revokedAt := Some(now))];
      var _ := RevokeDescendants(key, now);
    }

    /** pruneExpiredRows, whose statements run in any order against the same cutoff. */
    method PruneExpired(cutoff: Time)
      modifies this
      ensures Snapshot() ==
        Protocol.PruneTable(Protocol.PruneTable(Protocol.PruneTable(Protocol.PruneTable(old(Snapshot()), Protocol.Requests, cutoff), Protocol.Codes, cutoff), Protocol.Devices, cutoff), Protocol.Tokens, cutoff)
      ensures grants == old(grants)
      ensures forall h :: h in old(tokens) && old(tokens)[h].expiresAt >= cutoff ==> h in tokens && tokens[h] == old(tokens)[h]
      ensures forall h :: h in old(codes) && old(codes)[h].expiresAt >= cutoff ==> h in codes && codes[h] == old(codes)[h]
      ensures forall h :: h in old(devices) && old(devices)[h].expiresAt >= cutoff ==> h in devices && devices[h] == old(devices)[h]
      ensures forall h :: h in old(requests) && old(requests)[h].expiresAt >= cutoff ==> h in requests && requests[h] == old(requests)[h]
    {
      requests := map h | h in requests && !(requests[h].expiresAt < cutoff) :: requests[h];
      codes := map h | h in codes && !(codes[h].expiresAt < cutoff) :: codes[h];
      devices := map h | h in devices && !(devices[h].expiresAt < cutoff) :: devices[h];
      tokens := map h | h in tokens && !(tokens[h].expiresAt < cutoff) :: tokens[h];
    }
  }

  /** Approving adds to a live grant and starts a revoked one over: it has afterwards exactly
      the scopes of both that are not short-lived, and exactly the claims it had plus those
      shown and still released. */
  lemma ApprovalAccumulates(db: Db, key: GrantKey, req: AuthRequest, server: Server, reg: Registry)
    ensures var merged := MergedGrant(db.grants, key, req, server, reg);
      var live := key in db.grants && db.grants[key].revokedAt.None?;
      && merged.revokedAt.None? && NoRepeats(merged.scopes) && NoRepeats(merged.releasedClaims)
      && (forall s :: s in merged.scopes <==> ((live && s in db.grants[key].scopes) || s in req.scopes) && !IsShortLivedScope(reg, req.resource, s))
      && (forall c :: c in merged.releasedClaims <==> (live && c in db.grants[key].releasedClaims) || (c in req.shownClaims && c in server.releaseClaims))
  {
  }
}
