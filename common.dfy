/** Values shared by every route handler: optional values, the HTTP response
    summary a handler returns, the current user, and small sequence helpers
    that stand for JavaScript's `Array.prototype.find` and `filter`. */
module Common {

  datatype Option<T> = None | Some(value: T)

  /** What a handler answers: the HTTP status code and the `message` of the JSON body. */
  datatype Response = Response(status: int, message: string)

  /** The decoded session cookie. Its contents come from a foreign JSON parse;
      only whether it is present matters to the handlers. */
  datatype User = User(role: Option<string>)

  const Unauthorized := Response(401, "Unauthorized: Authentication required")

  /** The message of an exception thrown by the store; its exact text is not modelled. */
  const StoreFailure := "store error"

  /** JavaScript truthiness of a numeric id taken from a JSON body:
      absent, null and 0 are falsy. */
  predicate Truthy(id: Option<int>) {
    id.Some? && id.value != 0
  }

  /** `status || "draft"`: an absent or empty status falls back to "draft". */
  function StatusOrDraft(status: Option<string>): (r: string)
    ensures r != ""
    ensures r == "draft" <==> status.None? || status.value == "" || status.value == "draft"
    ensures status.Some? && status.value != "" ==> r == status.value
  {
    if status.Some? && status.value != "" then status.value else "draft"
  }

  /** Index of the first element satisfying `p`, as `Array.prototype.find` picks it. */
  function FindFirst<T>(s: seq<T>, p: T -> bool): (r: Option<nat>)
    ensures r.Some? ==> r.value < |s| && p(s[r.value])
    ensures r.Some? ==> forall j :: 0 <= j < r.value ==> !p(s[j])
    ensures r.None? <==> forall j :: 0 <= j < |s| ==> !p(s[j])
  {
    if |s| == 0 then None
    else if p(s[0]) then Some(0)
    else match FindFirst(s[1..], p)
      case None => None
      case Some(j) => Some(j + 1)
  }

  /** Two sequences on which `p` and `q` agree position by position have the
      same first match. */
  lemma FindFirstAgrees<T, U>(a: seq<T>, p: T -> bool, b: seq<U>, q: U -> bool)
    requires |a| == |b|
    requires forall j :: 0 <= j < |a| ==> p(a[j]) == q(b[j])
    ensures FindFirst(a, p) == FindFirst(b, q)
  {
  }

  /** The elements of `s` that `keep` accepts, in their original order
      (a `deleteMany` keeps exactly the rows its `where` does not match). */
  function Filter<T(!new)>(s: seq<T>, keep: T -> bool): (r: seq<T>)
    ensures |r| <= |s|
    ensures forall x :: x in r <==> x in s && keep(x)
  {
    if |s| == 0 then []
    else (if keep(s[0]) then [s[0]] else []) + Filter(s[1..], keep)
  }

  /** Filtering keeps the order of what remains: a key that strictly
      increases along `s` strictly increases along the result. */
  lemma {:induction false} FilterKeepsIncreasing<T(!new)>(s: seq<T>, keep: T -> bool, key: T -> int)
    requires forall i, j :: 0 <= i < j < |s| ==> key(s[i]) < key(s[j])
    ensures forall i, j :: 0 <= i < j < |Filter(s, keep)| ==> key(Filter(s, keep)[i]) < key(Filter(s, keep)[j])
    decreases |s|
  {
    if |s| > 0 {
      var t := Filter(s[1..], keep);
      FilterKeepsIncreasing(s[1..], keep, key);
      forall x | x in t ensures key(s[0]) < key(x) {
        var k :| 0 <= k < |s[1..]| && s[1..][k] == x;
        assert s[k + 1] == x;
      }
    }
  }

  function Digit(d: nat): char
    requires d < 10
  {
    "0123456789"[d]
  }

  function NatToString(n: nat): string
    decreases n
  {
    if n < 10 then [Digit(n)] else NatToString(n / 10) + [Digit(n % 10)]
  }

  /** Decimal rendering of an id inside a template literal. */
  function IntToString(i: int): string {
    if i < 0 then "-" + NatToString(-i) else NatToString(i)
  }
}
