/** The few PHP built-ins whose behaviour the import engine and the geolocator depend on,
    written out over Dafny values. An ordered PHP array is a sequence of (key, value) entries. */
module PhpBuiltins {

  /** Position of the first entry of `t` whose value is `needle`, or |t| when there is none:
      the scan performed by `array_search($needle, $t)` (comparison taken as strict). */
  function FirstIndex<K, V(==)>(t: seq<(K, V)>, needle: V): (i: nat)
    ensures i <= |t|
    ensures forall j :: 0 <= j < i ==> t[j].1 != needle
    ensures i < |t| ==> t[i].1 == needle
  {
    if |t| == 0 then 0
    else if t[0].1 == needle then 0
    else 1 + FirstIndex(t[1..], needle)
  }

  /** Entry i is the first entry of `t` whose value is `needle`. */
  predicate FirstMatch<K, V(==)>(t: seq<(K, V)>, needle: V, i: int)
  {
    0 <= i < |t| && t[i].1 == needle && forall j :: 0 <= j < i ==> t[j].1 != needle
  }

  /** `if ($k = array_search($needle, $t)) { return $k; } else { return $fallback; }`:
      the key of the first entry holding `needle` when that key is truthy, `fallback` otherwise. */
  function SearchOr<K, V(==)>(t: seq<(K, V)>, needle: V, truthy: K -> bool, fallback: K): (r: K)
    ensures (forall i :: 0 <= i < |t| ==> t[i].1 != needle) ==> r == fallback
    ensures forall i :: FirstMatch(t, needle, i) ==> r == (if truthy(t[i].0) then t[i].0 else fallback)
  {
    var i := FirstIndex(t, needle);
    if i < |t| && truthy(t[i].0) then t[i].0 else fallback
  }

  /** Truthiness of a string array key: PHP turns the key "0" into the integer 0, and both
      0 and "" are falsy. */
  predicate TruthyKey(k: string)
  {
    k != "" && k != "0"
  }

  /** Truthiness of an integer array key. */
  predicate TruthyInt(k: int)
  {
    k != 0
  }

  function UpperChar(c: char): char
  {
    if 'a' <= c <= 'z' then (c as int - 32) as char else c
  }

  /** Upper-casing of the ASCII letters of `s` (the part of `mb_strtoupper` this model keeps). */
  function Upper(s: string): (r: string)
    ensures |r| == |s|
    ensures forall i :: 0 <= i < |s| ==> r[i] == UpperChar(s[i])
  {
    if s == [] then [] else [UpperChar(s[0])] + Upper(s[1..])
  }

  /** `implode($sep, $parts)`. */
  function Implode(sep: string, parts: seq<string>): string
  {
    if |parts| == 0 then ""
    else if |parts| == 1 then parts[0]
    else parts[0] + sep + Implode(sep, parts[1..])
  }

  /** Number of leading characters of `s` equal to `c`. */
  function LeadCount(s: string, c: char): (n: nat)
    ensures n <= |s|
    ensures forall i :: 0 <= i < n ==> s[i] == c
    ensures n < |s| ==> s[n] != c
  {
    if |s| > 0 && s[0] == c then 1 + LeadCount(s[1..], c) else 0
  }

  /** Number of trailing characters of `s` equal to `c`. */
  function TailCount(s: string, c: char): (n: nat)
    ensures n <= |s|
    ensures forall i :: |s| - n <= i < |s| ==> s[i] == c
    ensures n < |s| ==> s[|s| - 1 - n] != c
  {
    if |s| > 0 && s[|s| - 1] == c then 1 + TailCount(s[..|s| - 1], c) else 0
  }

  /** `trim($s, $c)` for a one-character list: the longest middle slice of `s` that neither
      starts nor ends with `c`; only copies of `c` are removed, and only at the two ends. */
  function Trim(s: string, c: char): (r: string)
    ensures r == [] || (r[0] != c && r[|r| - 1] != c)
    ensures r == [] <==> forall i :: 0 <= i < |s| ==> s[i] == c
    ensures LeadCount(s, c) + |r| <= |s|
    ensures r == s[LeadCount(s, c)..LeadCount(s, c) + |r|]
    ensures forall i :: 0 <= i < LeadCount(s, c) ==> s[i] == c
    ensures forall i :: LeadCount(s, c) + |r| <= i < |s| ==> s[i] == c
  {
    var a := LeadCount(s, c);
    if a == |s| then "" else s[a..|s| - TailCount(s, c)]
  }

  function DigitChar(d: nat): char
    requires d < 10
  {
    ('0' as int + d) as char
  }

  /** Decimal text of a natural number, most significant digit first. */
  function Digits(n: nat): (r: string)
    ensures |r| > 0
    ensures forall i :: 0 <= i < |r| ==> '0' <= r[i] <= '9'
  {
    if n < 10 then [DigitChar(n)] else Digits(n / 10) + [DigitChar(n % 10)]
  }

  /** PHP's conversion of an integer to a string. */
  function IntText(n: int): string
  {
    if n < 0 then "-" + Digits(-n) else Digits(n)
  }

  /** The array built by the successive assignments `$a[$k] = $v` for the pairs in order,
      starting from an empty array: a later pair overwrites an earlier one with the same key. */
  function Assign<V>(pairs: seq<(string, V)>): map<string, V>
  {
    if pairs == [] then map[]
    else Assign(pairs[..|pairs| - 1])[pairs[|pairs| - 1].0 := pairs[|pairs| - 1].1]
  }

  /** Assigning one more pair onto an array built from pairs updates that one key. */
  lemma AssignExtend<V>(base: map<string, V>, pairs: seq<(string, V)>, key: string, value: V)
    ensures base + Assign(pairs + [(key, value)]) == (base + Assign(pairs))[key := value]
  {
    assert (pairs + [(key, value)])[..|pairs|] == pairs;
  }

  /** A key is in the built array exactly when some pair carries it, and there it holds the
      value of the last pair that carries it. */
  lemma {:induction false} AssignContents<V>(pairs: seq<(string, V)>)
    ensures forall k :: k in Assign(pairs) <==> exists i :: 0 <= i < |pairs| && pairs[i].0 == k
    ensures forall i :: 0 <= i < |pairs| && (forall j :: i < j < |pairs| ==> pairs[j].0 != pairs[i].0) ==>
              pairs[i].0 in Assign(pairs) && Assign(pairs)[pairs[i].0] == pairs[i].1
  {
    if pairs != [] {
      var front := pairs[..|pairs| - 1];
      AssignContents(front);
      forall k | k in Assign(pairs)
        ensures exists i :: 0 <= i < |pairs| && pairs[i].0 == k
      {
        if k != pairs[|pairs| - 1].0 {
          assert k in Assign(front);
          var i :| 0 <= i < |front| && front[i].0 == k;
          assert pairs[i] == front[i];
        }
      }
    }
  }

  /** Concatenation regroups freely. */
  lemma ConcatAssociative<T>(a: seq<T>, b: seq<T>, c: seq<T>)
    ensures (a + b) + c == a + (b + c)
  {
  }
}
