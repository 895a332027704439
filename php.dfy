/**
 * The small part of PHP's value model and standard library that the AI module relies on:
 * values as json_decode(..., true) produces them, array lookups with isset semantics,
 * the exceptions the code throws or catches, integer-to-string conversion used
 * in messages, and stripos (ASCII case-insensitive substring search).
 */
module Php {

  datatype Option<T> = None | Some(value: T)

  /** An array key; PHP turns numeric string keys ("0") into integer keys. */
  datatype Key = IntKey(n: int) | StrKey(s: string)

  /** A PHP value: scalars and ordered arrays (key => value), as decoded JSON yields them. */
  datatype Value =
    | Null
    | Bool(b: bool)
    | Int(i: int)
    | Float(r: real)
    | Str(s: string)
    | Arr(entries: seq<Entry>)

  datatype Entry = Entry(key: Key, value: Value)

  /** The exceptions that matter to the module. */
  datatype Exception =
    | Failure(message: string)          // new \Exception($message)
    | InvalidArgument(message: string)  // a failed Webmozart\Assert assertion
    | JsonError                         // Safe\Exceptions\JsonException from Safe\json_encode / Safe\json_decode

  /** A PHP call either returns a value or throws. */
  datatype Result<T> = Ok(value: T) | Threw(exception: Exception)

  /** The element stored under key k, if the array has one. */
  function Get(entries: seq<Entry>, k: Key): (r: Option<Value>)
    ensures r.None? <==> forall i :: 0 <= i < |entries| ==> entries[i].key != k
    ensures r.Some? ==> exists i :: 0 <= i < |entries| && entries[i] == Entry(k, r.value)
  {
    if entries == [] then None
    else if entries[0].key == k then Some(entries[0].value)
    else
      var rest := Get(entries[1..], k);
      assert rest.Some? ==> exists i :: 0 <= i < |entries| && entries[i] == Entry(k, rest.value) by {
        if rest.Some? {
          var i :| 0 <= i < |entries[1..]| && entries[1..][i] == Entry(k, rest.value);
          assert entries[i + 1] == Entry(k, rest.value);
        }
      }
      rest
  }

  /** The element under k is the first one with that key. */
  lemma {:induction false} GetFirst(entries: seq<Entry>, k: Key, i: nat)
    requires i < |entries| && entries[i].key == k
    requires forall j :: 0 <= j < i ==> entries[j].key != k
    ensures Get(entries, k) == Some(entries[i].value)
    decreases i
  {
    if i > 0 {
      GetFirst(entries[1..], k, i - 1);
    }
  }

  /** `isset($a[$k]) ? $a[$k] : absent`: isset is false for a missing key and for a null element. */
  function Isset(entries: seq<Entry>, k: Key): (r: Option<Value>)
    ensures r.Some? <==> Get(entries, k).Some? && !Get(entries, k).value.Null?
    ensures r.Some? ==> r == Get(entries, k)
  {
    match Get(entries, k)
    case None => None
    case Some(v) => if v.Null? then None else Some(v)
  }

  function DigitChar(d: nat): char
    requires d < 10
  {
    "0123456789"[d]
  }

  function NatToString(n: nat): string
    decreases n
  {
    if n < 10 then [DigitChar(n)] else NatToString(n / 10) + [DigitChar(n % 10)]
  }

  /** The decimal text PHP produces when an int is concatenated to a string. */
  function IntToString(i: int): string
  {
    if i < 0 then "-" + NatToString(-i) else NatToString(i)
  }

  /** ASCII case folding, as stripos does it since PHP 8.2. */
  function Lower(c: char): char
  {
    if 'A' <= c <= 'Z' then (c as int + 32) as char else c
  }

  /** The needle occurs, ignoring ASCII case, in the haystack at offset i. */
  predicate MatchesAt(haystack: string, needle: string, i: nat)
  {
    i + |needle| <= |haystack| &&
    forall k :: 0 <= k < |needle| ==> Lower(haystack[i + k]) == Lower(needle[k])
  }

  /** Character-by-character comparison of needle[k..] with haystack[i + k..]. */
  predicate MatchFrom(haystack: string, needle: string, i: nat, k: nat)
    requires i + |needle| <= |haystack| && k <= |needle|
    decreases |needle| - k
  {
    k == |needle| || (Lower(haystack[i + k]) == Lower(needle[k]) && MatchFrom(haystack, needle, i, k + 1))
  }

  lemma {:induction false} MatchFromIff(haystack: string, needle: string, i: nat, k: nat)
    requires i + |needle| <= |haystack| && k <= |needle|
    ensures MatchFrom(haystack, needle, i, k) <==>
            forall k' :: k <= k' < |needle| ==> Lower(haystack[i + k']) == Lower(needle[k'])
    decreases |needle| - k
  {
    if k < |needle| {
      MatchFromIff(haystack, needle, i, k + 1);
    }
  }

  /** stripos($haystack, $needle, $from): the first offset >= from where the needle occurs. */
  function StriposFrom(haystack: string, needle: string, from: nat): (r: Option<nat>)
    ensures r.Some? ==> from <= r.value && MatchesAt(haystack, needle, r.value)
    ensures r.Some? ==> forall j :: from <= j < r.value ==> !MatchesAt(haystack, needle, j)
    ensures r.None? ==> forall j :: from <= j ==> !MatchesAt(haystack, needle, j)
    decreases |haystack| - from
  {
    if from + |needle| > |haystack| then None
    else
      MatchFromIff(haystack, needle, from, 0);
      if MatchFrom(haystack, needle, from, 0) then Some(from)
      else StriposFrom(haystack, needle, from + 1)
  }

  /** stripos($haystack, $needle): None stands for PHP's `false`. */
  function Stripos(haystack: string, needle: string): (r: Option<nat>)
    ensures r.Some? ==> MatchesAt(haystack, needle, r.value) &&
                        forall j :: 0 <= j < r.value ==> !MatchesAt(haystack, needle, j)
    ensures r.None? <==> forall j :: 0 <= j ==> !MatchesAt(haystack, needle, j)
  {
    StriposFrom(haystack, needle, 0)
  }

  /** Whether the needle occurs at some offset >= from: stripos's search without the position. */
  predicate OccursFrom(haystack: string, needle: string, from: nat)
    decreases |haystack| - from
  {
    from + |needle| <= |haystack| &&
    (MatchFrom(haystack, needle, from, 0) || OccursFrom(haystack, needle, from + 1))
  }

  lemma {:induction false} OccursFromIff(haystack: string, needle: string, from: nat)
    ensures OccursFrom(haystack, needle, from) <==> StriposFrom(haystack, needle, from).Some?
    decreases |haystack| - from
  {
    if from + |needle| <= |haystack| {
      OccursFromIff(haystack, needle, from + 1);
    }
  }

  /** stripos finds the needle exactly when it occurs somewhere. */
  lemma StriposFindsOccurrence(haystack: string, needle: string)
    ensures Stripos(haystack, needle).Some? <==> OccursFrom(haystack, needle, 0)
  {
    OccursFromIff(haystack, needle, 0);
  }

  /** Case-insensitive search only looks at the ASCII-lowered text. */
  lemma {:induction false} StriposIgnoresCase(h1: string, h2: string, needle: string)
    requires |h1| == |h2|
    requires forall i :: 0 <= i < |h1| ==> Lower(h1[i]) == Lower(h2[i])
    ensures Stripos(h1, needle) == Stripos(h2, needle)
  {
    assert forall j :: MatchesAt(h1, needle, j) <==> MatchesAt(h2, needle, j);
  }

  /** A needle without a space cannot match over a space in the haystack. */
  lemma NoMatchOverSpace(haystack: string, needle: string, i: nat, p: nat)
    requires forall k :: 0 <= k < |needle| ==> Lower(needle[k]) != ' '
    requires i <= p < |haystack| && p < i + |needle| && haystack[p] == ' '
    ensures !MatchesAt(haystack, needle, i)
  {
    var k := p - i;
    assert Lower(haystack[i + k]) != Lower(needle[k]);
  }

  /**
   * A needle with no space in it occurs in `a + " " + b` exactly when it occurs in a or in b:
   * no occurrence can straddle the space.
   */
  lemma {:induction false} StriposAcrossSpace(a: string, b: string, needle: string)
    requires forall k :: 0 <= k < |needle| ==> Lower(needle[k]) != ' '
    ensures Stripos(a + " " + b, needle).Some? <==> Stripos(a, needle).Some? || Stripos(b, needle).Some?
  {
    var h := a + " " + b;
    if Stripos(h, needle).Some? {
      var i := Stripos(h, needle).value;
      if i + |needle| <= |a| {
        assert MatchesAt(a, needle, i);
        assert Stripos(a, needle).Some?;
      } else if i > |a| {
        assert MatchesAt(b, needle, i - |a| - 1);
        assert Stripos(b, needle).Some?;
      } else {
        NoMatchOverSpace(h, needle, i, |a|);
        assert false;
      }
    }
    if Stripos(a, needle).Some? {
      var i := Stripos(a, needle).value;
      assert MatchesAt(h, needle, i);
    }
    if Stripos(b, needle).Some? {
      var i := Stripos(b, needle).value;
      var at := |a| + 1 + i;
      forall k | 0 <= k < |needle| ensures Lower(h[at + k]) == Lower(needle[k]) {
        assert h[at + k] == b[i + k];
      }
      assert MatchesAt(h, needle, at);
      assert Stripos(h, needle).Some?;
    }
  }
}
