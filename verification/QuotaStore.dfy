/**
 The quota debit and settlement used without the accounting coordinator (`internal/store/quota.go`).
 */
module QuotaStore {
  import opened Text

  predicate StrictlyAscending(s: seq<Str>) {
    forall i, j :: 0 <= i < j < |s| ==> Less(s[i], s[j])
  }

  predicate AscendingStrs(s: seq<Str>) {
    forall i, j :: 0 <= i < j < |s| ==> s[i] == s[j] || Less(s[i], s[j])
  }

  function InsertStr(x: Str, s: seq<Str>): seq<Str> {
    if s == [] || x == s[0] || Less(x, s[0]) then [x] + s else [s[0]] + InsertStr(x, s[1..])
  }

  /** `sort.Strings`. */
  function SortStrs(s: seq<Str>): seq<Str> {
    if s == [] then [] else InsertStr(s[0], SortStrs(s[1..]))
  }

  lemma {:induction false} InsertStrSorts(x: Str, s: seq<Str>)
    requires AscendingStrs(s)
    ensures AscendingStrs(InsertStr(x, s)) && forall y :: y in InsertStr(x, s) <==> y == x || y in s
  {
    hide Less;
    if s != [] {
      assert s == [s[0]] + s[1..];
      if x == s[0] || Less(x, s[0]) {
        forall j | 0 <= j < |s| ensures x == s[j] || Less(x, s[j]) {
          if x != s[0] && s[0] != s[j] {
            LessTransitive(x, s[0], s[j]);
          }
        }
      } else {
        InsertStrSorts(x, s[1..]);
        LessTotal(x, s[0]);
        var rest := InsertStr(x, s[1..]);
        forall j | 0 <= j < |rest| ensures s[0] == rest[j] || Less(s[0], rest[j]) {
          assert rest[j] in rest;
        }
      }
    }
  }

  lemma {:induction false} SortStrsSorts(s: seq<Str>)
    ensures AscendingStrs(SortStrs(s)) && forall y :: y in SortStrs(s) <==> y in s
  {
    hide InsertStr, Less;
    if s != [] {
      SortStrsSorts(s[1..]);
      InsertStrSorts(s[0], SortStrs(s[1..]));
      assert s == [s[0]] + s[1..];
    }
  }

  /** A sorted list without repetitions. */
  function Dedup(s: seq<Str>): seq<Str> {
    if s == [] then [] else Keep(Dedup(s[..|s| - 1]), s[|s| - 1])
  }

  function Keep(kept: seq<Str>, x: Str): seq<Str> {
    if kept == [] || kept[|kept| - 1] != x then kept + [x] else kept
  }

  lemma DedupMore(s: seq<Str>, i: nat)
    requires i < |s|
    ensures Dedup(s[..i + 1]) == Keep(Dedup(s[..i]), s[i])
  {
    assert s[..i + 1][..i] == s[..i];
  }

  lemma {:induction false} DedupAscends(s: seq<Str>)
    requires AscendingStrs(s)
    ensures StrictlyAscending(Dedup(s)) && |Dedup(s)| <= |s|
    ensures s != [] ==> Dedup(s) != [] && Dedup(s)[|Dedup(s)| - 1] == s[|s| - 1]
    ensures forall y :: y in Dedup(s) <==> y in s
  {
    hide Less;
    if s != [] {
      var n := |s| - 1;
      DedupAscends(s[..n]);
      var kept := Dedup(s[..n]);
      assert s == s[..n] + [s[n]];
      if n > 0 {
        assert s[n - 1] == s[..n][n - 1];
        if kept[|kept| - 1] != s[n] {
          AppendAscends(kept, s[n]);
        } else {
          assert s[n] in kept;
        }
      }
    }
  }

  /** `sortedQuotaScopes`: sort a copy, then drop repetitions in place. Each scope comes out once. */
  method SortedQuotaScopes(scopes: seq<Str>) returns (r: seq<Str>)
    ensures r == Dedup(SortStrs(scopes))
    ensures StrictlyAscending(r) && forall y :: y in r <==> y in scopes
  {
    var sorted := SortStrs(scopes);
    SortStrsSorts(scopes);
    DedupAscends(sorted);
    var out := new Str[|sorted|](i requires 0 <= i < |sorted| => sorted[i]);
    var n := 0;
    assert out[..0] == Dedup(sorted[..0]);
    hide Dedup, AscendingStrs, StrictlyAscending;
    for i := 0 to |sorted|
      invariant n <= i && out[..n] == Dedup(sorted[..i])
      invariant forall k :: i <= k < |sorted| ==> out[k] == sorted[k]
    {
      DedupMore(sorted, i);
      n := KeepIn(out, n, i);
    }
    r := out[..n];
    assert sorted[..|sorted|] == sorted;
  }

  /** One turn of the loop, which overwrites only what it has already read. */
  method KeepIn(out: array<Str>, n: nat, i: nat) returns (n': nat)
    requires n <= i < out.Length
    modifies out
    ensures n <= n' <= n + 1 && out[..n'] == Keep(old(out[..n]), old(out[i]))
    ensures forall k :: i < k < out.Length ==> out[k] == old(out[k])
  {
    n' := n;
    var scope := out[i];
    if n == 0 || out[n - 1] != scope {
      ghost var kept := out[..n];
      out[n] := scope;
      assert out[..n + 1] == kept + [scope];
      n' := n + 1;
    }
  }

  lemma AppendAscends(s: seq<Str>, x: Str)
    requires s != [] && StrictlyAscending(s) && Less(s[|s| - 1], x)
    ensures StrictlyAscending(s + [x])
  {
    forall i | 0 <= i < |s| ensures Less(s[i], x) {
      if i < |s| - 1 {
        LessTransitive(s[i], s[|s| - 1], x);
      }
    }
  }

  type Balances = map<Str, int>

  /** Every configured scope of the list moved by `delta`, once. */
  function Moved(balances: Balances, scopes: seq<Str>, delta: int): Balances {
    map s | s in balances :: if s in scopes then balances[s] + delta else balances[s]
  }

  lemma MovedAt(balances: Balances, scopes: seq<Str>, delta: int)
    ensures Moved(balances, scopes, delta).Keys == balances.Keys
    ensures forall s :: s in balances ==>
              Moved(balances, scopes, delta)[s] == balances[s] + if s in scopes then delta else 0
  {
  }

  predicate Sufficient(balances: Balances, scopes: seq<Str>, est: int) {
    forall s :: s in scopes && s in balances ==> balances[s] >= est
  }

  lemma MovedMore(balances: Balances, scopes: seq<Str>, i: nat, delta: int)
    requires i < |scopes| && forall k :: 0 <= k < i ==> scopes[k] != scopes[i]
    ensures var before := Moved(balances, scopes[..i], delta);
            Moved(balances, scopes[..i + 1], delta)
            == if scopes[i] in balances then before[scopes[i] := balances[scopes[i]] + delta] else before
    ensures scopes[i] in balances ==> Moved(balances, scopes[..i], delta)[scopes[i]] == balances[scopes[i]]
  {
    assert scopes[..i + 1] == scopes[..i] + [scopes[i]];
  }

  lemma SameMembers(balances: Balances, a: seq<Str>, b: seq<Str>, delta: int)
    requires forall y :: y in a <==> y in b
    ensures Moved(balances, a, delta) == Moved(balances, b, delta)
  {
  }

  lemma MovedNone(balances: Balances, scopes: seq<Str>, delta: int)
    requires delta == 0 || scopes == []
    ensures Moved(balances, scopes, delta) == balances
  {
  }

  predicate InRange(balances: Balances, scopes: seq<Str>, delta: int) {
    forall s :: s in scopes && s in balances ==> Fits64(balances[s] + delta)
  }

  class QuotaRepo {
    var balances: Balances

    /** All or nothing, and each scope once: either every configured scope of the list had at least the
        amount and lost exactly it, or nothing changed. */
    method TryDebit(scopes: seq<Str>, est: int) returns (ok: bool)
      modifies this
      ensures ok <==> est <= 0 || Sufficient(old(balances), scopes, est)
      ensures ok <==> est <= 0 || forall s :: s in scopes && s in old(balances) ==> old(balances)[s] >= est
      ensures balances == if ok && est > 0 then Moved(old(balances), scopes, -est) else old(balances)
      ensures balances.Keys == old(balances).Keys
      ensures forall s :: s in balances ==>
                balances[s] == old(balances)[s] - if ok && est > 0 && s in scopes then est else 0
    {
      hide Moved, StrictlyAscending;
      if est <= 0 || |scopes| == 0 {
        if scopes == [] {
          MovedNone(balances, scopes, -est);
        }
        return true;
      }
      var sorted := SortedQuotaScopes(scopes);
      DistinctScopes(sorted);
      var tx := DebitEach(balances, sorted, est);
      SameMembers(balances, sorted, scopes, -est);
      SameSufficient(balances, sorted, scopes, est);
      MovedAt(balances, scopes, -est);
      if tx.None? {
        return false;
      }
      balances := tx.value;
      ok := true;
    }

    /** Every configured scope of the list moves by `delta`; a 64-bit overflow aborts the transaction. */
    method Settle(scopes: seq<Str>, delta: int) returns (ok: bool)
      modifies this
      ensures ok <==> delta == 0 || InRange(old(balances), scopes, delta)
      ensures balances == if ok then Moved(old(balances), scopes, delta) else old(balances)
      ensures balances.Keys == old(balances).Keys
      ensures forall s :: s in balances ==> balances[s] == old(balances)[s] + if ok && s in scopes then delta else 0
    {
      hide Moved, StrictlyAscending, Fits64;
      if delta == 0 || |scopes| == 0 {
        MovedNone(balances, scopes, delta);
        return true;
      }
      var sorted := SortedQuotaScopes(scopes);
      DistinctScopes(sorted);
      var tx := MoveEach(balances, sorted, delta);
      MovedAt(balances, scopes, delta);
      SameMembers(balances, sorted, scopes, delta);
      if tx.None? {
        return false;
      }
      balances := tx.value;
      ok := true;
    }
  }

  lemma SameSufficient(balances: Balances, a: seq<Str>, b: seq<Str>, est: int)
    requires forall y :: y in a <==> y in b
    ensures Sufficient(balances, a, est) <==> Sufficient(balances, b, est)
  {
  }

  /** The loop of `TryDebit`, on the transaction's copy. */
  method DebitEach(balances: Balances, scopes: seq<Str>, est: int) returns (r: Option<Balances>)
    requires forall i, j :: 0 <= i < j < |scopes| ==> scopes[i] != scopes[j]
    ensures r == if Sufficient(balances, scopes, est) then Some(Moved(balances, scopes, -est)) else None
  {
    hide Moved;
    var tx := balances;
    MovedNone(balances, scopes[..0], -est);
    for i := 0 to |scopes|
      invariant tx == Moved(balances, scopes[..i], -est) && tx.Keys == balances.Keys
      invariant Sufficient(balances, scopes[..i], est)
    {
      var scope := scopes[i];
      MovedMore(balances, scopes, i, -est);
      assert scopes[..i + 1] == scopes[..i] + [scope];
      if scope in tx && tx[scope] >= est {
        tx := tx[scope := tx[scope] - est];
      } else if scope in tx {
        assert scope in scopes;
        return None;
      }
    }
    assert scopes[..|scopes|] == scopes;
    r := Some(tx);
  }

  /** The loop of `Settle`, on the transaction's copy. */
  method MoveEach(balances: Balances, scopes: seq<Str>, delta: int) returns (r: Option<Balances>)
    requires forall i, j :: 0 <= i < j < |scopes| ==> scopes[i] != scopes[j]
    ensures r == if InRange(balances, scopes, delta) then Some(Moved(balances, scopes, delta)) else None
  {
    hide Moved, Fits64;
    var tx := balances;
    MovedNone(balances, scopes[..0], delta);
    for i := 0 to |scopes|
      invariant tx == Moved(balances, scopes[..i], delta) && tx.Keys == balances.Keys
      invariant InRange(balances, scopes[..i], delta)
    {
      var scope := scopes[i];
      MovedMore(balances, scopes, i, delta);
      assert scopes[..i + 1] == scopes[..i] + [scope];
      if scope in tx {
        if !Fits64(tx[scope] + delta) {
          assert scope in scopes;
          return None;
        }
        tx := tx[scope := tx[scope] + delta];
      }
    }
    assert scopes[..|scopes|] == scopes;
    r := Some(tx);
  }

  lemma DistinctScopes(s: seq<Str>)
    requires StrictlyAscending(s)
    ensures forall i, j :: 0 <= i < j < |s| ==> s[i] != s[j]
  {
    forall i, j | 0 <= i < j < |s| ensures s[i] != s[j] {
      LessTotal(s[i], s[j]);
    }
  }
}
