/** The few Go library string operations the agent relies on (`strings.HasPrefix`,
    `strings.HasSuffix`, `strings.TrimPrefix`, `strings.TrimLeft` with a one-character
    cutset, `strings.Join`, decimal formatting of an unsigned integer, and reading a
    `map[string]string` that yields "" for a missing key).  A Dafny `string` stands for
    a Go string with one `char` per byte, so `|s|` is Go's `len(s)`. */
module Strings {

  predicate HasPrefix(s: string, p: string) {
    |p| <= |s| && s[..|p|] == p
  }

  predicate HasSuffix(s: string, suffix: string) {
    |suffix| <= |s| && s[|s| - |suffix|..] == suffix
  }

  /** strings.TrimPrefix: drops `p` once if `s` starts with it. */
  function TrimPrefix(s: string, p: string): (r: string)
    ensures HasPrefix(s, p) ==> s == p + r
    ensures !HasPrefix(s, p) ==> r == s
  {
    if HasPrefix(s, p) then s[|p|..] else s
  }

  /** strings.TrimLeft(s, cutset) for a one-character cutset: every leading `c` goes. */
  function TrimLeft(s: string, c: char): (r: string)
    ensures |r| <= |s| && r == s[|s| - |r|..]
    ensures r == [] || r[0] != c
    ensures forall i :: 0 <= i < |s| - |r| ==> s[i] == c
  {
    if |s| > 0 && s[0] == c then TrimLeft(s[1..], c) else s
  }

  /** strings.Join */
  function Join(parts: seq<string>, sep: string): string {
    if |parts| == 0 then ""
    else if |parts| == 1 then parts[0]
    else parts[0] + sep + Join(parts[1..], sep)
  }

  /** `ks` lists the names of `keys`, each exactly once: the visit of a Range. */
  predicate ListsOnce(ks: seq<string>, keys: set<string>)
    decreases |ks|
  {
    if |ks| == 0 then keys == {}
    else ks[0] in keys && ListsOnce(ks[1..], keys - {ks[0]})
  }

  /** What listing each key once means: no name twice, and exactly the keys. */
  lemma {:induction false} ListsOnceMeans(ks: seq<string>, keys: set<string>)
    requires ListsOnce(ks, keys)
    ensures forall i, j :: 0 <= i < j < |ks| ==> ks[i] != ks[j]
    ensures forall k :: k in keys <==> k in ks
  {
    if |ks| > 0 {
      var rest := ks[1..];
      ListsOnceMeans(rest, keys - {ks[0]});
      assert forall i :: 1 <= i < |ks| ==> ks[i] == rest[i - 1];
      forall k | k in ks
        ensures k in keys
      {
        if k != ks[0] {
          var i :| 0 <= i < |ks| && ks[i] == k;
          assert rest[i - 1] == k && k in rest;
        }
      }
      forall k | k in keys
        ensures k in ks
      {
        if k != ks[0] {
          assert k in rest;
          var j :| 0 <= j < |rest| && rest[j] == k;
          assert ks[j + 1] == k;
        }
      }
    }
  }

  /** A listing grows by one name not yet listed. */
  lemma {:induction false} ListsOnceAppend(ks: seq<string>, keys: set<string>, k: string)
    requires ListsOnce(ks, keys) && k !in keys
    ensures ListsOnce(ks + [k], keys + {k})
  {
    if |ks| == 0 {
      assert ks + [k] == [k];
      assert keys + {k} - {k} == {};
    } else {
      ListsOnceAppend(ks[1..], keys - {ks[0]}, k);
      assert (ks + [k])[1..] == ks[1..] + [k];
      assert keys + {k} - {ks[0]} == keys - {ks[0]} + {k};
    }
  }

  /** Reading a Go `map[string]string`: a missing key reads as "". */
  function Lookup(m: map<string, string>, k: string): (r: string)
    ensures k in m ==> r == m[k]
    ensures k !in m ==> r == ""
  {
    if k in m then m[k] else ""
  }

  predicate IsDigit(c: char) {
    '0' <= c <= '9'
  }

  function DigitChar(d: nat): char
    requires d < 10
  {
    ['0', '1', '2', '3', '4', '5', '6', '7', '8', '9'][d]
  }

  /** Decimal rendering of an unsigned integer, as `%v` prints a `uint64`. */
  function Decimal(n: nat): (r: string)
    ensures 1 <= |r|
    ensures n < 10 <==> |r| == 1
    ensures forall i :: 0 <= i < |r| ==> IsDigit(r[i])
  {
    if n < 10 then [DigitChar(n)] else Decimal(n / 10) + [DigitChar(n % 10)]
  }

  lemma DigitCharInjective(a: nat, b: nat)
    requires a < 10 && b < 10 && DigitChar(a) == DigitChar(b)
    ensures a == b
  {
  }

  /** Distinct numbers have distinct decimal renderings. */
  lemma {:induction false} DecimalInjective(a: nat, b: nat)
    requires Decimal(a) == Decimal(b)
    ensures a == b
  {
    var da, db := Decimal(a), Decimal(b);
    if a < 10 && b < 10 {
      DigitCharInjective(a, b);
    } else if 10 <= a && 10 <= b {
      assert da[|da| - 1] == DigitChar(a % 10);
      assert db[|db| - 1] == DigitChar(b % 10);
      DigitCharInjective(a % 10, b % 10);
      assert Decimal(a / 10) == da[..|da| - 1] == db[..|db| - 1] == Decimal(b / 10);
      DecimalInjective(a / 10, b / 10);
    }
  }
}
