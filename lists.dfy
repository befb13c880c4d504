/** Sequence helpers: `Array.prototype.find`, stated as an index search. */
module Lists {
  import opened Wrappers

  /** The index of the first element satisfying `p`, as `find`/`findIndex` return it. */
  function FindFirst<T>(s: seq<T>, p: T -> bool): (r: Option<nat>)
    ensures r.Some? ==> r.value < |s| && p(s[r.value])
    ensures r.Some? ==> forall j :: 0 <= j < r.value ==> !p(s[j])
    ensures r.None? <==> forall j :: 0 <= j < |s| ==> !p(s[j])
    decreases |s|
  {
    if |s| == 0 then None
    else if p(s[0]) then Some(0)
    else
      match FindFirst(s[1..], p)
      case None => None
      case Some(k) => Some(k + 1)
  }

  /** Searching a concatenation: the first hit lies in the left part when the left part has one. */
  lemma {:induction false} FindFirstAppend<T>(a: seq<T>, b: seq<T>, p: T -> bool)
    ensures FindFirst(a + b, p) ==
            match FindFirst(a, p)
            case Some(i) => Some(i)
            case None =>
              match FindFirst(b, p)
              case Some(k) => Some(|a| + k)
              case None => None
  {
    var ab := a + b;
    match FindFirst(a, p)
    case Some(i) =>
      assert ab[i] == a[i];
      assert forall j :: 0 <= j < i ==> ab[j] == a[j];
      FindFirstUnique(ab, p, i);
    case None =>
      match FindFirst(b, p)
      case Some(k) =>
        assert ab[|a| + k] == b[k];
        assert forall j :: 0 <= j < |a| ==> ab[j] == a[j];
        assert forall j :: |a| <= j < |a| + k ==> ab[j] == b[j - |a|];
        FindFirstUnique(ab, p, |a| + k);
      case None =>
        assert forall j :: 0 <= j < |a| ==> ab[j] == a[j];
        assert forall j :: |a| <= j < |ab| ==> ab[j] == b[j - |a|];
  }

  /** The contract of `FindFirst` determines its result. */
  lemma FindFirstUnique<T>(s: seq<T>, p: T -> bool, i: nat)
    requires i < |s| && p(s[i])
    requires forall j :: 0 <= j < i ==> !p(s[j])
    ensures FindFirst(s, p) == Some(i)
  {
  }
}
