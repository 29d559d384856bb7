/** The refresh-token table on its own: what issuing, rotating, revoking and pruning do to
    the chains of rotated tokens, over any sequence of such operations. */
module TokenChains {
  import opened Basics
  import opened Tables

  /** The rows, and the next random value. */
  datatype Table = Table(rows: TokenTable, next: Hash)

  datatype Op =
    | Draw(count: nat)
    | Issue(token: RefreshToken)
    | Rotate(h: Hash, scopes: seq<string>)
    | Revoke(selected: set<Hash>, at: Time)
    | Prune(cutoff: Time)

  function ApplyOp(t: Table, op: Op): Table {
    match op
    case Draw(count) => t.(next := t.next + count)
    case Issue(token) => Table(t.rows[t.next := token.(rotatedTo := None, revokedAt := None)], t.next + 1)
    case Rotate(h, scopes) => if !Unclaimed(t.rows, h) then t else Table(RotateToken(t.rows, h, t.rows[h], scopes, t.next), t.next + 1)
    case Revoke(selected, at) => t.(rows := RevokeTokens(t.rows, selected, at))
    case Prune(cutoff) => t.(rows := PruneTokens(t.rows, cutoff))
  }

  /** A rotation may only narrow the scopes. */
  predicate Legal(t: Table, op: Op) {
    op.Rotate? && op.h in t.rows ==> forall s :: s in op.scopes ==> s in t.rows[op.h].scopes
  }

  function TableAt(t: Table, ops: seq<Op>, n: nat): Table
    requires n <= |ops|
  {
    if n == 0 then t else ApplyOp(TableAt(t, ops, n - 1), ops[n - 1])
  }

  predicate LegalAt(t: Table, ops: seq<Op>, i: nat)
    requires i < |ops|
  {
    Legal(TableAt(t, ops, i), ops[i])
  }

  ghost predicate LegalRun(t: Table, ops: seq<Op>) {
    forall i {:trigger LegalAt(t, ops, i)} :: 0 <= i < |ops| ==> LegalAt(t, ops, i)
  }

  /** The operation redeems `h`: its rotation claim succeeds. */
  predicate Redeems(t: Table, op: Op, h: Hash) {
    op.Rotate? && op.h == h && Unclaimed(t.rows, h)
  }

  // ---------------------------------------------------------------- shape of the chains

  /** `b` is what rotating `a` may create. */
  ghost predicate SameLine(a: RefreshToken, b: RefreshToken) {
    && a.user == b.user && a.client == b.client && a.resource == b.resource
    && a.grant == b.grant && a.expiresAt == b.expiresAt && a.via == b.via
    && forall s :: s in b.scopes ==> s in a.scopes
  }

  /** `n` is the token that `h` was rotated to. */
  predicate Follows(rows: TokenTable, h: Hash, n: Hash) {
    h in rows && rows[h].rotatedTo == Some(n)
  }

  ghost predicate Linked(rows: TokenTable) {
    forall h, n :: Follows(rows, h, n) ==> n in rows && h < n && SameLine(rows[h], rows[n])
  }

  ghost predicate OnePredecessor(rows: TokenTable) {
    forall g, h, n :: Follows(rows, g, n) && Follows(rows, h, n) ==> g == h
  }

  ghost predicate ChainInv(t: Table) {
    && (forall h :: h in t.rows ==> h < t.next)
    && Linked(t.rows)
    && OnePredecessor(t.rows)
  }

  lemma StepKeepsChains(t: Table, op: Op)
    requires ChainInv(t) && Legal(t, op)
    ensures ChainInv(ApplyOp(t, op))
  {
    var t' := ApplyOp(t, op);
    forall h, n | Follows(t'.rows, h, n)
      ensures n in t'.rows && h < n && SameLine(t'.rows[h], t'.rows[n])
    {
      if Follows(t.rows, h, n) {
        assert SameLine(t.rows[h], t.rows[n]);
      }
    }
    forall g, h, n | Follows(t'.rows, g, n) && Follows(t'.rows, h, n)
      ensures g == h
    {
      assert Follows(t.rows, g, n) || n == t.next;
      assert Follows(t.rows, h, n) || n == t.next;
    }
  }

  /** In every reachable table the chains keep their shape. */
  lemma {:induction false} RunKeepsChains(t: Table, ops: seq<Op>, n: nat)
    requires ChainInv(t) && LegalRun(t, ops) && n <= |ops|
    ensures ChainInv(TableAt(t, ops, n))
  {
    if n > 0 {
      RunKeepsChains(t, ops, n - 1);
      assert LegalAt(t, ops, n - 1);
      StepKeepsChains(TableAt(t, ops, n - 1), ops[n - 1]);
    }
  }

  /** `dst` is reached from `src` by zero or more rotations. */
  predicate Reaches(rows: TokenTable, src: Hash, dst: Hash)
    decreases dst - src
  {
    src in rows && (src == dst || (rows[src].rotatedTo.Some? && src < rows[src].rotatedTo.value <= dst && Reaches(rows, rows[src].rotatedTo.value, dst)))
  }

  /** The end of a token's chain. */
  function Tail(t: Table, h: Hash): (tail: Hash)
    requires ChainInv(t) && h in t.rows
    ensures Reaches(t.rows, h, tail)
    ensures tail in t.rows && tail >= h && t.rows[tail].rotatedTo.None?
    decreases t.next - h
  {
    if t.rows[h].rotatedTo.None? then h
    else
      var n := t.rows[h].rotatedTo.value;
      assert Follows(t.rows, h, n);
      Tail(t, n)
  }

  /** All members of a chain agree on everything but their scopes, which only shrink. */
  lemma {:induction false} ChainMembersAgree(t: Table, src: Hash, dst: Hash)
    requires ChainInv(t) && Reaches(t.rows, src, dst)
    ensures dst in t.rows && SameLine(t.rows[src], t.rows[dst])
    decreases dst - src
  {
    if src != dst {
      var n := t.rows[src].rotatedTo.value;
      assert Follows(t.rows, src, n);
      ChainMembersAgree(t, n, dst);
    }
  }

  lemma {:induction false} ReachesTransitive(rows: TokenTable, a: Hash, b: Hash, c: Hash)
    requires Reaches(rows, a, b) && Reaches(rows, b, c) && b <= c
    ensures Reaches(rows, a, c)
    decreases b - a
  {
    if a != b { ReachesTransitive(rows, rows[a].rotatedTo.value, b, c); }
  }

  /** The step before `dst` on the way from `src`. */
  lemma {:induction false} LastStep(t: Table, src: Hash, dst: Hash) returns (p: Hash)
    requires ChainInv(t) && Reaches(t.rows, src, dst) && src != dst
    ensures Reaches(t.rows, src, p) && Follows(t.rows, p, dst) && src <= p < dst
    decreases dst - src
  {
    var n := t.rows[src].rotatedTo.value;
    assert Follows(t.rows, src, n);
    if n == dst {
      p := src;
    } else {
      p := LastStep(t, n, dst);
    }
  }

  /** Chains never merge: of two tokens that lead to the same one, one leads to the other. */
  lemma {:induction false} ChainsAreLinear(t: Table, a: Hash, b: Hash, dst: Hash)
    requires ChainInv(t) && a <= b && Reaches(t.rows, a, dst) && Reaches(t.rows, b, dst)
    ensures Reaches(t.rows, a, b)
    decreases dst
  {
    if dst == b {
    } else if a == b {
    } else {
      var p := LastStep(t, b, dst);
      if a != dst {
        var q := LastStep(t, a, dst);
        assert p == q;
        ChainsAreLinear(t, a, b, p);
      }
    }
  }

  /** Every un-rotated member of a chain is its one tail. */
  lemma {:induction false} OneTail(t: Table, h: Hash, u: Hash)
    requires ChainInv(t) && h in t.rows && Reaches(t.rows, h, u) && u in t.rows && t.rows[u].rotatedTo.None?
    ensures u == Tail(t, h)
    decreases u - h
  {
    if h != u {
      var n := t.rows[h].rotatedTo.value;
      assert Follows(t.rows, h, n);
      OneTail(t, n, u);
    }
  }

  /** Pruning removes a chain wholly or not at all. */
  lemma PruneTakesWholeChains(t: Table, cutoff: Time, src: Hash, dst: Hash)
    requires ChainInv(t) && Reaches(t.rows, src, dst)
    ensures src in PruneTokens(t.rows, cutoff) <==> dst in PruneTokens(t.rows, cutoff)
  {
    ChainMembersAgree(t, src, dst);
  }

  // ---------------------------------------------------------------- revocation

  /** `h` is out of reach: revoked, or gone and never to be drawn again. */
  ghost predicate Dead(t: Table, h: Hash) {
    h < t.next && (h in t.rows ==> t.rows[h].revokedAt.Some?)
  }

  lemma {:induction false} DeadForever(t: Table, ops: seq<Op>, i: nat, j: nat, h: Hash)
    requires i <= j <= |ops| && Dead(TableAt(t, ops, i), h)
    ensures Dead(TableAt(t, ops, j), h)
  {
    if i < j { DeadForever(t, ops, i, j - 1, h); }
  }

  /** A token that a revocation selected is never redeemed afterwards, whatever else runs. */
  lemma {:induction false} RevokedNeverRedeemed(t: Table, ops: seq<Op>, i: nat, j: nat, h: Hash)
    requires i < j < |ops|
    requires h in TableAt(t, ops, i).rows && h < TableAt(t, ops, i).next
    requires ops[i].Revoke? && h in ops[i].selected
    ensures !Redeems(TableAt(t, ops, j), ops[j], h)
  {
    assert Dead(TableAt(t, ops, i + 1), h);
    DeadForever(t, ops, i + 1, j, h);
  }

  /** No live token of `grant` is older than `floor`, nor follows one that is. */
  ghost predicate Renewed(t: Table, grant: GrantKey, floor: Hash) {
    && floor <= t.next
    && (forall h :: h in t.rows && t.rows[h].grant == grant && t.rows[h].revokedAt.None? ==> floor <= h)
    && (forall h, n :: Follows(t.rows, h, n) && floor <= n && n in t.rows && t.rows[n].grant == grant ==> floor <= h)
  }

  lemma StepKeepsRenewed(t: Table, op: Op, grant: GrantKey, floor: Hash)
    requires ChainInv(t) && Legal(t, op) && Renewed(t, grant, floor)
    ensures Renewed(ApplyOp(t, op), grant, floor)
  {
    var t' := ApplyOp(t, op);
    forall h, n | Follows(t'.rows, h, n) && floor <= n && n in t'.rows && t'.rows[n].grant == grant
      ensures floor <= h
    {
      if Follows(t.rows, h, n) {
        assert n in t.rows && t.rows[n].grant == grant;
      }
    }
  }

  lemma {:induction false} RunKeepsRenewed(t: Table, ops: seq<Op>, i: nat, j: nat, grant: GrantKey, floor: Hash)
    requires i <= j <= |ops| && ChainInv(t) && LegalRun(t, ops)
    requires Renewed(TableAt(t, ops, i), grant, floor)
    ensures Renewed(TableAt(t, ops, j), grant, floor)
  {
    if i < j {
      RunKeepsRenewed(t, ops, i, j - 1, grant, floor);
      RunKeepsChains(t, ops, j - 1);
      assert LegalAt(t, ops, j - 1);
      StepKeepsRenewed(TableAt(t, ops, j - 1), ops[j - 1], grant, floor);
    }
  }

  /** The first token of `h`'s chain. */
  lemma {:induction false} Root(t: Table, h: Hash) returns (root: Hash)
    requires ChainInv(t) && h in t.rows
    ensures root in t.rows && Reaches(t.rows, root, h) && forall g :: !Follows(t.rows, g, root)
    decreases h
  {
    if g :| Follows(t.rows, g, h) {
      root := Root(t, g);
      assert Reaches(t.rows, g, h);
      ChainOrder(t.rows, root, g);
      ReachesTransitive(t.rows, root, g, h);
    } else {
      root := h;
    }
  }

  lemma {:induction false} ChainOrder(rows: TokenTable, a: Hash, b: Hash)
    requires Reaches(rows, a, b)
    ensures a <= b
    decreases b - a
  {
    if a != b { ChainOrder(rows, rows[a].rotatedTo.value, b); }
  }

  /** Above the floor, a chain of the grant stays above it back to its root. */
  lemma {:induction false} RootAboveFloor(t: Table, root: Hash, h: Hash, grant: GrantKey, floor: Hash)
    requires ChainInv(t) && Renewed(t, grant, floor)
    requires Reaches(t.rows, root, h) && h in t.rows && t.rows[h].grant == grant && floor <= h
    ensures floor <= root
    decreases h
  {
    if root != h {
      var p := LastStep(t, root, h);
      ChainMembersAgree(t, root, h);
      ChainMembersAgree(t, root, p);
      RootAboveFloor(t, root, p, grant, floor);
    }
  }

  /** A row without predecessor that was not there at `i` was put there by an Issue since:
      a rotated-in row keeps its predecessor as long as it exists. */
  lemma {:induction false} RootWasIssued(t: Table, ops: seq<Op>, i: nat, j: nat, root: Hash) returns (k: nat)
    requires i <= j <= |ops| && ChainInv(t) && LegalRun(t, ops)
    requires TableAt(t, ops, i).next <= root
    requires root in TableAt(t, ops, j).rows && forall g :: !Follows(TableAt(t, ops, j).rows, g, root)
    ensures i <= k < j && ops[k].Issue? && TableAt(t, ops, k).next == root
    ensures ops[k].token.grant == TableAt(t, ops, j).rows[root].grant
  {
    RunKeepsChains(t, ops, j);
    if i == j {
      RunKeepsChains(t, ops, i);
      assert false;
    } else {
      var before := TableAt(t, ops, j - 1);
      RunKeepsChains(t, ops, j - 1);
      if root in before.rows {
        forall g ensures !Follows(before.rows, g, root) {
          if Follows(before.rows, g, root) {
            assert SameLine(before.rows[g], before.rows[root]);
            assert Follows(TableAt(t, ops, j).rows, g, root);
          }
        }
        k := RootWasIssued(t, ops, i, j - 1, root);
      } else {
        if ops[j - 1].Rotate? {
          assert Follows(TableAt(t, ops, j).rows, ops[j - 1].h, root);
        }
        k := j - 1;
      }
    }
  }

  /** After a revocation of all of a grant's tokens, every token of the grant that is live
      later is reached from one that an Issue for that grant created after the revocation. */
  lemma LiveTokensAreNewlyIssued(t: Table, ops: seq<Op>, i: nat, j: nat, grant: GrantKey, h: Hash)
      returns (root: Hash, k: nat)
    requires i < j <= |ops| && ChainInv(t) && LegalRun(t, ops)
    requires ops[i].Revoke? && TokensOfGrant(TableAt(t, ops, i).rows, grant) <= ops[i].selected
    requires h in TableAt(t, ops, j).rows && TableAt(t, ops, j).rows[h].grant == grant
    requires TableAt(t, ops, j).rows[h].revokedAt.None?
    ensures Reaches(TableAt(t, ops, j).rows, root, h)
    ensures i < k < j && ops[k].Issue? && ops[k].token.grant == grant && TableAt(t, ops, k).next == root
  {
    var floor := TableAt(t, ops, i + 1).next;
    RunKeepsChains(t, ops, i);
    RunKeepsChains(t, ops, i + 1);
    var revoked := TableAt(t, ops, i + 1);
    forall g | g in revoked.rows && revoked.rows[g].grant == grant ensures revoked.rows[g].revokedAt.Some? {
      assert g in TokensOfGrant(TableAt(t, ops, i).rows, grant);
    }
    assert Renewed(revoked, grant, floor);
    RunKeepsRenewed(t, ops, i + 1, j, grant, floor);
    RunKeepsChains(t, ops, j);
    root := Root(TableAt(t, ops, j), h);
    RootAboveFloor(TableAt(t, ops, j), root, h, grant, floor);
    k := RootWasIssued(t, ops, i + 1, j, root);
    ChainMembersAgree(TableAt(t, ops, j), root, h);
  }
}
