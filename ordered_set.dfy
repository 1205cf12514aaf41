/**
 * A JavaScript `Set` seen through its iteration order.
 *
 * The server keeps its broadcasters in a `Set` and publishes them with
 * `[...broadcasters]`, which lists the members in the order they were first
 * inserted. A duplicate-free sequence captures both the membership and that
 * order: `add` of a new member appends it, `add` of a present member leaves
 * the sequence alone, and `delete` takes the member out of its place.
 */
module OrderedSet {

  /** No element occurs twice: what makes a sequence a set. */
  predicate NoDuplicates<T(==)>(s: seq<T>) {
    forall i, j :: 0 <= i < j < |s| ==> s[i] != s[j]
  }

  /** `Set.prototype.add`: a new member goes last; a present one keeps its place. */
  function Add<T(==,!new)>(s: seq<T>, x: T): (r: seq<T>)
    ensures forall y :: y in r <==> y in s || y == x
    ensures NoDuplicates(s) ==> NoDuplicates(r)
    ensures |s| <= |r| <= |s| + 1 && r[..|s|] == s
  {
    if x in s then s else s + [x]
  }

  /** `Set.prototype.delete`: every occurrence of `x` leaves, the rest stay in order. */
  function Delete<T(==,!new)>(s: seq<T>, x: T): (r: seq<T>)
    ensures forall y :: y in r <==> y in s && y != x
    ensures NoDuplicates(s) ==> NoDuplicates(r)
    ensures x !in s ==> r == s
    decreases |s|
  {
    if s == [] then []
    else if s[0] == x then NoDuplicatesSplit(s); Delete(s[1..], x)
    else NoDuplicatesSplit(s); NoDuplicatesCons(s[0], Delete(s[1..], x)); [s[0]] + Delete(s[1..], x)
  }

  /** A duplicate-free sequence is its head followed by a duplicate-free tail that lacks the head. */
  lemma NoDuplicatesSplit<T>(s: seq<T>)
    requires s != []
    ensures NoDuplicates(s) <==> s[0] !in s[1..] && NoDuplicates(s[1..])
  {
    if s[0] !in s[1..] && NoDuplicates(s[1..]) {
      forall i, j | 0 <= i < j < |s| ensures s[i] != s[j] {
        if i > 0 {
          assert s[i] == s[1..][i - 1] && s[j] == s[1..][j - 1];
        } else {
          assert s[j] == s[1..][j - 1];
        }
      }
    }
    if NoDuplicates(s) {
      forall k | 0 <= k < |s[1..]| ensures s[1..][k] != s[0] {
        assert s[1..][k] == s[k + 1];
      }
    }
  }

  /** Putting a new element in front of a duplicate-free sequence keeps it duplicate-free. */
  lemma NoDuplicatesCons<T>(x: T, t: seq<T>)
    ensures NoDuplicates([x] + t) <==> x !in t && NoDuplicates(t)
  {
    NoDuplicatesSplit([x] + t);
    assert ([x] + t)[1..] == t;
  }

  /** In a duplicate-free sequence, deleting the member at `i` closes the gap
      it leaves and changes nothing else: the insertion order of the others
      survives the removal. */
  lemma {:induction false} DeleteAt<T(!new)>(s: seq<T>, i: nat)
    requires NoDuplicates(s) && i < |s|
    ensures Delete(s, s[i]) == s[..i] + s[i + 1..]
  {
    NoDuplicatesSplit(s);
    var tail := s[1..];
    if i == 0 {
      assert Delete(s, s[0]) == Delete(tail, s[0]);
      assert s[..0] + s[1..] == tail;
    } else {
      assert s[0] != s[i] && tail[i - 1] == s[i];
      assert Delete(s, s[i]) == [s[0]] + Delete(tail, s[i]);
      DeleteAt(tail, i - 1);
      assert tail[..i - 1] == s[1..i] && tail[i..] == s[i + 1..];
      assert [s[0]] + s[1..i] == s[..i];
    }
  }

  /** Adding a member that is already there, or twice in a row, is the same as adding it once. */
  lemma AddIdempotent<T(!new)>(s: seq<T>, x: T)
    ensures Add(Add(s, x), x) == Add(s, x)
    ensures x in s ==> Add(s, x) == s
  {
  }

  /** Deleting a member that was just added to a set lacking it gives the set back. */
  lemma {:induction false} DeleteUndoesAdd<T(!new)>(s: seq<T>, x: T)
    requires x !in s
    ensures Delete(Add(s, x), x) == s
  {
    var t := s + [x];
    assert Add(s, x) == t;
    if s == [] {
      assert t[1..] == [];
    } else {
      var tail := s[1..];
      assert t[0] == s[0] != x;
      assert t[1..] == tail + [x];
      assert x !in tail;
      DeleteUndoesAdd(tail, x);
      assert Delete(tail + [x], x) == tail;
      assert Delete(t, x) == [s[0]] + Delete(t[1..], x);
      assert [s[0]] + tail == s;
    }
  }
}
