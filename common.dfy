/** Small helpers shared by every deployment: optional and fallible values,
    ASCII lower-casing of addresses, substring search on error messages and the
    `split(".")[1]` used on composite snapshot ids. */
module Common {

  datatype Option<+T> = None | Some(value: T) {
    function GetOr(default: T): T {
      match this
      case Some(v) => v
      case None => default
    }
  }

  /** A value or the message of the error the source throws. */
  datatype Result<+T> = Ok(value: T) | Err(message: string)

  /** Lower-cases the ASCII letters of a string (addresses are hex). */
  function ToLower(s: string): (r: string)
    ensures |r| == |s|
    ensures forall i :: 0 <= i < |s| ==> r[i] == LowerChar(s[i])
  {
    seq(|s|, i requires 0 <= i < |s| => LowerChar(s[i]))
  }

  function LowerChar(c: char): (d: char)
    ensures 'A' <= c <= 'Z' ==> d as int == c as int + 32
    ensures !('A' <= c <= 'Z') ==> d == c
  {
    if 'A' <= c <= 'Z' then (c as int + 32) as char else c
  }

  predicate IsLower(s: string) {
    forall i :: 0 <= i < |s| ==> !('A' <= s[i] <= 'Z')
  }

  /** Lower-casing twice is lower-casing once, so lookups keyed by a
      lower-cased address are insensitive to the case of the query. */
  lemma ToLowerIdempotent(s: string)
    ensures IsLower(ToLower(s))
    ensures ToLower(ToLower(s)) == ToLower(s)
  {
    var l := ToLower(s);
    var ll := ToLower(l);
    assert forall i :: 0 <= i < |s| ==> ll[i] == l[i];
  }

  /** The zero address that marks mints and burns in Transfer events. */
  const NullAddress: string := "0x0000000000000000000000000000000000000000"

  predicate IsNullAddress(a: string) {
    ToLower(a) == NullAddress
  }

  /** The non-null parties among `accounts`, in order (`accounts.filter(a => !isNullAddress(a))`). */
  function NonNull(accounts: seq<string>): (r: seq<string>)
    ensures forall a :: a in r <==> a in accounts && !IsNullAddress(a)
    ensures |r| <= |accounts|
  {
    if accounts == [] then []
    else (if IsNullAddress(accounts[0]) then [] else [accounts[0]]) + NonNull(accounts[1..])
  }

  /** `pat` sits in `s` starting at position `i`. */
  predicate OccursAt(s: string, pat: string, i: int) {
    0 <= i <= |s| - |pat| && s[i..i + |pat|] == pat
  }

  /** `s.includes(pat)`: `pat` occurs in `s` at some position. */
  ghost predicate Occurs(s: string, pat: string) {
    exists i :: OccursAt(s, pat, i)
  }

  /** Left-to-right scan deciding `s.includes(pat)`. */
  function Includes(s: string, pat: string): (b: bool)
    ensures b <==> Occurs(s, pat)
    decreases |s|
  {
    if |s| < |pat| then false
    else if s[..|pat|] == pat then (assert OccursAt(s, pat, 0); true)
    else
      var rest := Includes(s[1..], pat);
      assert rest ==> Occurs(s, pat) by {
        if rest {
          var i :| OccursAt(s[1..], pat, i);
          assert s[i + 1..i + 1 + |pat|] == s[1..][i..i + |pat|];
          assert OccursAt(s, pat, i + 1);
        }
      }
      assert Occurs(s, pat) ==> rest by {
        if Occurs(s, pat) {
          var i :| OccursAt(s, pat, i);
          assert i != 0;
          assert s[1..][i - 1..i - 1 + |pat|] == s[i..i + |pat|];
          assert OccursAt(s[1..], pat, i - 1);
        }
      }
      rest
  }

  /** A message that contains `outer` contains every substring of `outer`. */
  lemma IncludesTransitive(s: string, outer: string, inner: string, at: nat)
    requires OccursAt(outer, inner, at)
    requires Includes(s, outer)
    ensures Includes(s, inner)
  {
    var i :| OccursAt(s, outer, i);
    assert s[i..i + |outer|] == outer;
    forall k | 0 <= k < |inner|
      ensures s[i + at + k] == inner[k]
    {
      assert s[i..i + |outer|][at + k] == outer[at + k];
      assert outer[at..at + |inner|][k] == inner[k];
    }
    assert s[i + at..i + at + |inner|] == inner;
    assert OccursAt(s, inner, i + at);
  }

  /** Position of the first `c` in `s`, if any. */
  function IndexOf(s: string, c: char): (r: Option<nat>)
    ensures r.None? <==> c !in s
    ensures r.Some? ==> r.value < |s| && s[r.value] == c && c !in s[..r.value]
  {
    if s == [] then None
    else if s[0] == c then Some(0)
    else match IndexOf(s[1..], c)
      case None => None
      case Some(i) => (assert s[..i + 1] == [s[0]] + s[1..][..i]; Some(i + 1))
  }

  /** `s.split(".")[1]`: the text between the first and the second dot,
      `undefined` (None) when `s` has no dot. */
  function SecondField(s: string): (r: Option<string>)
    ensures r.None? <==> '.' !in s
    ensures r.Some? ==> '.' !in r.value
    ensures r.Some? ==> exists i :: 0 <= i < |s| && s[i] == '.' && '.' !in s[..i] && r.value <= s[i + 1..]
  {
    match IndexOf(s, '.')
    case None => None
    case Some(i) =>
      var rest := s[i + 1..];
      match IndexOf(rest, '.')
      case None => Some(rest)
      case Some(j) => Some(rest[..j])
  }

  /** The composite id `pool + "." + account` gives back `account`
      when neither part contains a dot. */
  lemma {:induction false} SecondFieldOfComposite(pool: string, account: string)
    requires '.' !in pool && '.' !in account
    ensures SecondField(pool + "." + account) == Some(account)
  {
    var s := pool + "." + account;
    assert s[|pool|] == '.';
    assert s[..|pool|] == pool;
    assert IndexOf(s, '.') == Some(|pool|);
    assert s[|pool| + 1..] == account;
  }

  /** `xs.find(p)`: the first element satisfying `p`, or undefined (None). */
  function FindFirst<T>(xs: seq<T>, p: T -> bool): (r: Option<T>)
    ensures r.None? <==> forall i :: 0 <= i < |xs| ==> !p(xs[i])
    ensures r.Some? ==> exists i :: 0 <= i < |xs| && xs[i] == r.value && p(xs[i])
                                    && forall j :: 0 <= j < i ==> !p(xs[j])
  {
    if xs == [] then None
    else if p(xs[0]) then Some(xs[0])
    else
      var rest := FindFirst(xs[1..], p);
      assert forall i :: 1 <= i < |xs| ==> xs[i] == xs[1..][i - 1];
      rest
  }

  /** Searching with pointwise-equal predicates finds the same element. */
  lemma {:induction false} FindFirstCongruent<T>(xs: seq<T>, p: T -> bool, q: T -> bool)
    requires forall x :: p(x) == q(x)
    ensures FindFirst(xs, p) == FindFirst(xs, q)
  {
    if xs != [] && !p(xs[0]) {
      FindFirstCongruent(xs[1..], p, q);
    }
  }

  /** 10^n, the divisor of `scaleDown(n)`. */
  function Pow10(n: nat): (r: nat)
    ensures r > 0
  {
    if n == 0 then 1 else 10 * Pow10(n - 1)
  }

  /** How a `Promise.all` over the results settles: with the first error. */
  function FirstError<T>(rs: seq<Result<T>>): (e: Option<string>)
    ensures e.None? <==> forall i :: 0 <= i < |rs| ==> rs[i].Ok?
    ensures e.Some? ==> exists i :: 0 <= i < |rs| && rs[i] == Err(e.value) && forall j :: 0 <= j < i ==> rs[j].Ok?
  {
    if rs == [] then None
    else if rs[0].Err? then Some(rs[0].message)
    else
      var e := FirstError(rs[1..]);
      assert forall i :: 1 <= i < |rs| ==> rs[i] == rs[1..][i - 1];
      e
  }

  /** The values of results that all succeeded. */
  function Values<T>(rs: seq<Result<T>>): (vs: seq<T>)
    requires forall i :: 0 <= i < |rs| ==> rs[i].Ok?
    ensures |vs| == |rs| && forall i :: 0 <= i < |rs| ==> vs[i] == rs[i].value
  {
    seq(|rs|, i requires 0 <= i < |rs| => rs[i].value)
  }

  /** No snapshot passed, for each of `n` accounts. */
  function NoneEach<T>(n: nat): (ps: seq<Option<T>>)
    ensures |ps| == n && forall i :: 0 <= i < n ==> ps[i].None?
  {
    seq(n, _ => None)
  }

  /** Rows read so far in front of the outcome of reading the rest: an
      error stays the error. */
  function Prepend<T>(acc: seq<T>, r: Result<seq<T>>): (p: Result<seq<T>>)
    ensures p.Ok? <==> r.Ok?
    ensures p.Err? ==> p == r
    ensures p.Ok? ==> |p.value| == |acc| + |r.value| && p.value[..|acc|] == acc && p.value[|acc|..] == r.value
  {
    match r
    case Ok(rows) => Ok(acc + rows)
    case Err(e) => Err(e)
  }

  /** Prepending twice is prepending the concatenation. */
  lemma PrependTwice<T>(acc: seq<T>, rows: seq<T>, r: Result<seq<T>>)
    ensures Prepend(acc, Prepend(rows, r)) == Prepend(acc + rows, r)
  {
    if r.Ok? {
      assert acc + (rows + r.value) == (acc + rows) + r.value;
    }
  }

  /** Appending to a log after a prefix appends to the part after it. */
  lemma AppendAfter<T>(prefix: seq<T>, done: seq<T>, more: seq<T>)
    ensures (prefix + done) + more == prefix + (done + more)
  {
  }
}
