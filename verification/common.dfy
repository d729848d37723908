/** Values shared by the three chat back-ends: optional values, results,
    the chat message sent to the model runtime, the runtime's reply, and the
    few JavaScript array/number operations the back-ends rely on. */
module Common {

  datatype Option<+T> = None | Some(value: T) {
    function GetOr(default: T): T {
      match this
      case Some(v) => v
      case None => default
    }
  }

  datatype Result<+T, +E> = Ok(value: T) | Err(error: E)

  /** One entry of the `messages` array posted to the runtime's /api/chat. */
  datatype Message = Message(role: string, content: string)

  /** The JSON body of a runtime chat reply, as far as the back-ends read it:
      `message.content` and `total_duration` (nanoseconds), each possibly absent. */
  datatype ChatBody = ChatBody(content: Option<string>, totalDuration: Option<nat>)

  /** What one HTTP request to the runtime yields: either the connection
      fails (fetch rejects, including a timeout), or a status line arrives
      with a body that parses as JSON (Some) or does not (None). */
  datatype Reply = Unreachable | Answered(status: int, json: Option<ChatBody>)

  /** `Response.ok`: the status is in the range 200-299. */
  predicate IsOk(status: int) {
    200 <= status <= 299
  }

  /** JavaScript truthiness of an optional string: absent and "" are falsy. */
  predicate Truthy(s: Option<string>) {
    s.Some? && s.value != ""
  }

  /** `s || fallback` on an optional string. */
  function OrElse(s: Option<string>, fallback: string): (r: string)
    ensures r == fallback <==> !Truthy(s) || s.value == fallback
    ensures Truthy(s) ==> r == s.value
  {
    if Truthy(s) then s.value else fallback
  }

  /** `a.slice(-n)` for n > 0: the last n elements, or all of them. */
  function LastN<T>(s: seq<T>, n: nat): (r: seq<T>)
    requires n > 0
    ensures |r| == if |s| <= n then |s| else n
    ensures r == s[|s| - |r|..]
  {
    if |s| <= n then s else s[|s| - n..]
  }

  /** Appending one element and keeping the last n is the same as keeping
      the last n of the longer history. */
  lemma LastNAppend<T>(s: seq<T>, x: T, n: nat)
    requires n > 0
    ensures LastN(LastN(s, n) + [x], n) == LastN(s + [x], n)
  {
    var w := LastN(s, n) + [x];
    if |s| >= n {
      assert w == s[|s| - n..] + [x];
      assert (s + [x])[|s| + 1 - n..] == s[|s| + 1 - n..] + [x];
      assert w[1..] == s[|s| + 1 - n..] + [x];
    }
  }

  /** `Math.round(a / b)` for b > 0: JavaScript rounds halves towards
      positive infinity, i.e. floor(a/b + 1/2). */
  function RoundDiv(a: int, b: int): (r: int)
    requires b > 0
    ensures 2 * b * r - b <= 2 * a < 2 * b * r + b
  {
    (2 * a + b) / (2 * b)
  }

  /** The rounded quotient is the only integer within one half of a/b
      (halves going up), so RoundDiv is determined by its contract. */
  lemma RoundDivUnique(a: int, b: int, r: int)
    requires b > 0
    requires 2 * b * r - b <= 2 * a < 2 * b * r + b
    ensures r == RoundDiv(a, b)
  {
    var q := RoundDiv(a, b);
    assert 2 * b * (r - q - 1) == 2 * b * r - 2 * b * q - 2 * b;
    assert 2 * b * (q - r - 1) == 2 * b * q - 2 * b * r - 2 * b;
    NegativeFactor(2 * b, r - q - 1);
    NegativeFactor(2 * b, q - r - 1);
  }

  lemma NegativeFactor(c: int, x: int)
    requires c > 0 && c * x < 0
    ensures x < 0
  {
  }

  function Sum(s: seq<int>): int {
    if s == [] then 0 else Sum(s[..|s| - 1]) + s[|s| - 1]
  }

  predicate NoDup<T(==)>(s: seq<T>) {
    forall i, j :: 0 <= i < j < |s| ==> s[i] != s[j]
  }

  /** The position of the first occurrence of x in s. */
  function FirstIndex<T(==)>(s: seq<T>, x: T): (k: nat)
    requires x in s
    ensures k < |s| && s[k] == x
    ensures forall i :: 0 <= i < k ==> s[i] != x
  {
    if s[0] == x then 0 else 1 + FirstIndex(s[1..], x)
  }

  /** Appending to s does not move the first occurrence of anything
      already in s, and a new element first occurs at the end. */
  lemma FirstIndexSnoc<T>(s: seq<T>, x: T)
    ensures forall y :: y in s ==> FirstIndex(s + [x], y) == FirstIndex(s, y)
    ensures x !in s ==> FirstIndex(s + [x], x) == |s|
  {
    forall y | y in s
      ensures FirstIndex(s + [x], y) == FirstIndex(s, y)
    {
      var a, b := FirstIndex(s + [x], y), FirstIndex(s, y);
      assert (s + [x])[b] == y;
      assert s[a] == y by { assert a <= b; }
    }
  }

  /** `[...new Set(s)]`: the distinct elements of s in order of first
      occurrence. */
  function Dedup<T(==, !new)>(s: seq<T>): (r: seq<T>)
    ensures NoDup(r)
    ensures forall x :: x in r <==> x in s
    ensures forall i, j :: 0 <= i < j < |r| ==> FirstIndex(s, r[i]) < FirstIndex(s, r[j])
    ensures |r| <= |s|
  {
    if s == [] then []
    else
      var p, x := s[..|s| - 1], s[|s| - 1];
      var d := Dedup(p);
      assert s == p + [x];
      FirstIndexSnoc(p, x);
      if x in d then d else d + [x]
  }

  lemma NoDupSnoc<T>(p: seq<T>, x: T)
    requires NoDup(p + [x])
    ensures NoDup(p) && x !in p
  {
    forall i | 0 <= i < |p| ensures p[i] != x {
      assert (p + [x])[i] == p[i] && (p + [x])[|p|] == x;
    }
    forall i, j | 0 <= i < j < |p| ensures p[i] != p[j] {
      assert (p + [x])[i] == p[i] && (p + [x])[j] == p[j];
    }
  }

  /** Deduplicating a list that has no repetitions changes nothing. */
  lemma {:induction false} DedupNoDup<T(!new)>(s: seq<T>)
    requires NoDup(s)
    ensures Dedup(s) == s
  {
    if s != [] {
      var p, x := s[..|s| - 1], s[|s| - 1];
      assert s == p + [x];
      NoDupSnoc(p, x);
      DedupNoDup(p);
      DedupSnoc(p, x);
    }
  }

  /** Appending an element already present changes nothing; appending a
      new one puts it last. */
  lemma DedupSnoc<T(!new)>(s: seq<T>, x: T)
    ensures Dedup(s + [x]) == if x in s then Dedup(s) else Dedup(s) + [x]
  {
    assert (s + [x])[..|s + [x]| - 1] == s;
  }
}
