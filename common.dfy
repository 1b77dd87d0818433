/** Values shared by every part of the back office: optional request fields,
    JavaScript's falsy defaults and integer operators, roles, the caller
    decoded from the session token, and HTTP outcomes. */
module Common {

  datatype Option<T> = None | Some(value: T)

  /** An HTTP outcome of a request handler. */
  datatype Status =
    | Ok            // 200
    | Created       // 201
    | BadRequest    // 400
    | Unauthorized  // 401
    | Forbidden     // 403
    | NotFound      // 404
    | ServerError   // 500: a statement failed and the handler's catch answered

  /** The roles of the `users.role` enumeration; organization memberships use
      the last three. */
  datatype Role = Superuser | Owner | Admin | Employee

  /** The user claims a verified session token carries (`req.user`). */
  datatype Caller = Caller(id: int, isSuperuser: bool)

  /** JavaScript's `x || 0` on a number that may be absent. */
  function OrZero(x: Option<int>): int {
    if x.Some? then x.value else 0
  }

  /** JavaScript's `x || 1` on a number that may be absent: absent and 0 both
      give 1. */
  function OrOne(x: Option<int>): (r: int)
    ensures r != 0
    ensures x.None? || x.value == 0 ==> r == 1
    ensures x.Some? && x.value != 0 ==> r == x.value
  {
    if x.Some? && x.value != 0 then x.value else 1
  }

  function Abs(x: int): int {
    if x < 0 then -x else x
  }

  /** `Math.floor(a / b)`. Dafny's `/` is Euclidean, which is the floor only
      for a positive divisor. */
  function FloorDiv(a: int, b: int): int
    requires b != 0
  {
    if b > 0 then a / b else (-a) / (-b)
  }

  /** JavaScript's `a % b`: truncating, so the remainder takes the sign of
      the dividend. */
  function TruncRem(a: int, b: int): int
    requires b != 0
  {
    var m := if b > 0 then b else -b;
    if a >= 0 then a % m else -((-a) % m)
  }

  /** `s.split(sep)[1]`: the text between the first and the second `sep`, or
      to the end; absent (`undefined`) when `sep` does not occur. */
  function SecondField(s: seq<char>, sep: char): (r: Option<seq<char>>)
    ensures r.None? <==> sep !in s
    ensures r.Some? ==> |r.value| < |s| && sep !in r.value
  {
    if |s| == 0 then None
    else if s[0] == sep then Some(FirstField(s[1..], sep))
    else SecondField(s[1..], sep)
  }

  /** `s.split(sep)[0]`: the text before the first `sep`. */
  function FirstField(s: seq<char>, sep: char): (r: seq<char>)
    ensures sep !in r
    ensures |r| <= |s| && r == s[..|r|]
    ensures |r| < |s| ==> s[|r|] == sep
  {
    if |s| == 0 || s[0] == sep then [] else [s[0]] + FirstField(s[1..], sep)
  }

  lemma {:induction false} FirstFieldOfJoin(a: seq<char>, b: seq<char>, sep: char)
    requires sep !in a
    ensures FirstField(a + [sep] + b, sep) == a
    ensures FirstField(a, sep) == a
  {
    if |a| > 0 {
      assert (a + [sep] + b)[1..] == a[1..] + [sep] + b;
      FirstFieldOfJoin(a[1..], b, sep);
    }
  }

  /** Splitting `prefix + sep + field` at `sep`, when neither part holds
      `sep`, gives back `field` as the second field. */
  lemma {:induction false} SecondFieldOfJoin(prefix: seq<char>, field: seq<char>, sep: char)
    requires sep !in prefix && sep !in field
    ensures SecondField(prefix + [sep] + field, sep) == Some(field)
  {
    if |prefix| == 0 {
      assert (prefix + [sep] + field)[1..] == field;
      FirstFieldOfJoin(field, [], sep);
    } else {
      assert (prefix + [sep] + field)[1..] == prefix[1..] + [sep] + field;
      SecondFieldOfJoin(prefix[1..], field, sep);
    }
  }

  /** A non-empty set of ids has a member to pick. */
  lemma NonEmpty(s: set<int>)
    requires s != {}
    ensures exists x :: x in s
  {
    if forall y :: y !in s {
      assert false;
    }
  }

  /** `s.filter((_, j) => j !== i)`: the sequence without its element at `i`. */
  function RemoveAt<T>(s: seq<T>, i: int): (r: seq<T>)
    ensures 0 <= i < |s| ==> |r| == |s| - 1
    ensures 0 <= i < |s| ==> forall j :: 0 <= j < i ==> r[j] == s[j]
    ensures 0 <= i < |s| ==> forall j :: i <= j < |r| ==> r[j] == s[j + 1]
    ensures !(0 <= i < |s|) ==> r == s
  {
    if 0 <= i < |s| then s[..i] + s[i + 1..] else s
  }

  /** `xs.find(x => x.id === id)`, the key read by `idOf`: the first element
      with that id, or none. */
  function FindById<T(==)>(xs: seq<T>, idOf: T -> int, id: int): (r: Option<T>)
    ensures r.None? <==> forall i :: 0 <= i < |xs| ==> idOf(xs[i]) != id
    ensures r.Some? ==> idOf(r.value) == id && r.value in xs
    ensures r.Some? ==> exists k :: 0 <= k < |xs| && xs[k] == r.value && forall i :: 0 <= i < k ==> idOf(xs[i]) != id
  {
    if xs == [] then None
    else if idOf(xs[0]) == id then Some(xs[0])
    else
      assert forall i :: 1 <= i < |xs| ==> xs[i] == xs[1..][i - 1];
      var r := FindById(xs[1..], idOf, id);
      if r.Some? then
        assert exists k :: 0 <= k < |xs[1..]| && xs[1..][k] == r.value && forall i :: 0 <= i < k ==> idOf(xs[1..][i]) != id;
        var k :| 0 <= k < |xs[1..]| && xs[1..][k] == r.value && forall i :: 0 <= i < k ==> idOf(xs[1..][i]) != id;
        assert xs[k + 1] == r.value && forall i :: 0 <= i < k + 1 ==> idOf(xs[i]) != id;
        r
      else r
  }

  /** The index of the first element whose key, read by `keyOf`, is not in
      `keys`, or `|xs|` when every key is: where a loop of inserts into a
      table with a foreign key on that column stops. */
  function FirstOutside<T>(xs: seq<T>, keys: set<int>, keyOf: T -> int): (k: nat)
    ensures k <= |xs|
    ensures forall i :: 0 <= i < k ==> keyOf(xs[i]) in keys
    ensures k < |xs| ==> keyOf(xs[k]) !in keys
  {
    if xs == [] then 0
    else if keyOf(xs[0]) !in keys then 0
    else
      assert forall i :: 1 <= i < |xs| ==> xs[i] == xs[1..][i - 1];
      1 + FirstOutside(xs[1..], keys, keyOf)
  }
}
