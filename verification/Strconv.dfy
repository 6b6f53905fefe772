// The parts of Go's strings and strconv packages that the bridge relies on.
module Strconv {
  import opened Basics

  /** strings.Split with a one-character separator. */
  function Split(s: string, sep: char): (parts: seq<string>)
    ensures |parts| >= 1
    ensures forall p :: p in parts ==> sep !in p
  {
    if s == "" then [""]
    else
      var rest := Split(s[1..], sep);
      if s[0] == sep then [""] + rest else [[s[0]] + rest[0]] + rest[1..]
  }

  function Join(parts: seq<string>, sep: char): string
    requires |parts| >= 1
  {
    if |parts| == 1 then parts[0] else parts[0] + [sep] + Join(parts[1..], sep)
  }

  lemma {:induction false} SplitPlain(s: string, sep: char)
    requires sep !in s
    ensures Split(s, sep) == [s]
  {
    if s != "" {
      SplitPlain(s[1..], sep);
      assert [s[0]] + s[1..] == s;
    }
  }

  lemma {:induction false} SplitCons(p: string, t: string, sep: char)
    requires sep !in p
    ensures Split(p + [sep] + t, sep) == [p] + Split(t, sep)
  {
    var s := p + [sep] + t;
    if p == "" {
      assert s[1..] == t;
    } else {
      assert s[1..] == p[1..] + [sep] + t;
      SplitCons(p[1..], t, sep);
      assert [p[0]] + p[1..] == p;
    }
  }

  /** Splitting undoes joining when no part holds the separator. */
  lemma {:induction false} SplitJoin(parts: seq<string>, sep: char)
    requires |parts| >= 1
    requires forall p :: p in parts ==> sep !in p
    ensures Split(Join(parts, sep), sep) == parts
  {
    if |parts| == 1 {
      SplitPlain(parts[0], sep);
    } else {
      SplitJoin(parts[1..], sep);
      SplitCons(parts[0], Join(parts[1..], sep), sep);
    }
  }

  /** Joining undoes splitting, for every string. */
  lemma {:induction false} JoinSplit(s: string, sep: char)
    ensures Join(Split(s, sep), sep) == s
  {
    if s != "" {
      JoinSplit(s[1..], sep);
      var rest := Split(s[1..], sep);
      var parts := Split(s, sep);
      if s[0] == sep {
        assert parts[1..] == rest;
      } else if |rest| > 1 {
        assert parts[1..] == rest[1..];
      }
      assert [s[0]] + s[1..] == s;
    }
  }

  /** Every separator in the string starts one more part. */
  lemma {:induction false} SplitAppend(s: string, t: string, sep: char)
    ensures |Split(s + t, sep)| == |Split(s, sep)| + |Split(t, sep)| - 1
  {
    if s == "" {
      assert s + t == t;
    } else {
      assert (s + t)[1..] == s[1..] + t;
      SplitAppend(s[1..], t, sep);
    }
  }

  lemma {:induction false} SplitMany(s: string, sep: char)
    requires sep in s
    ensures |Split(s, sep)| >= 2
  {
    if s[0] != sep {
      SplitMany(s[1..], sep);
    }
  }

  /** A separator inside a part makes the split longer than what was joined. */
  lemma {:induction false} SplitJoinLength(parts: seq<string>, sep: char)
    requires |parts| >= 1
    ensures |Split(Join(parts, sep), sep)| >= |parts|
    ensures (exists p :: p in parts && sep in p) ==> |Split(Join(parts, sep), sep)| > |parts|
  {
    if sep in parts[0] {
      SplitMany(parts[0], sep);
    }
    if |parts| > 1 {
      var t := Join(parts[1..], sep);
      SplitJoinLength(parts[1..], sep);
      assert ([sep] + t)[1..] == t;
      SplitAppend(parts[0], [sep] + t, sep);
      assert Join(parts, sep) == parts[0] + ([sep] + t);
    }
  }

  function Digit(d: nat): char
    requires d < 10
  {
    (d + 48) as char
  }

  predicate IsDigit(c: char) { 48 <= c as int <= 57 }

  /** strconv.Itoa and the %d verb on a non-negative number. */
  function Itoa(n: nat): (s: string)
    ensures s != "" && forall c :: c in s ==> IsDigit(c)
  {
    if n < 10 then [Digit(n)] else Itoa(n / 10) + [Digit(n % 10)]
  }

  const INT_LIMIT: int := 0x8000_0000_0000_0000

  /** The value of a string of decimal digits; None when a character is no digit. */
  function Digits(s: string): Option<nat>
  {
    if s == "" then Some(0)
    else
      var last := s[|s| - 1];
      match Digits(s[..|s| - 1])
      case Some(hi) => if IsDigit(last) then Some(hi * 10 + (last as int - 48)) else None
      case None => None
  }

  /** strconv.Atoi: an optional sign, at least one digit, and a value that fits an int64. */
  function Atoi(s: string): Option<int>
  {
    var signed := s != "" && (s[0] == '-' || s[0] == '+');
    var negative := s != "" && s[0] == '-';
    var body := if signed then s[1..] else s;
    if body == "" then None
    else match Digits(body)
      case None => None
      case Some(v) =>
        var n: int := if negative then 0 - v else v;
        if -INT_LIMIT <= n < INT_LIMIT then Some(n) else None
  }

  lemma {:induction false} DigitsItoa(n: nat)
    ensures Digits(Itoa(n)) == Some(n)
  {
    var s := Itoa(n);
    if n < 10 {
      assert s[..0] == "";
    } else {
      DigitsItoa(n / 10);
      assert s[..|s| - 1] == Itoa(n / 10);
    }
  }

  /** Reading back a printed number gives the number, up to the largest int64. */
  lemma AtoiItoa(n: nat)
    requires n < INT_LIMIT
    ensures Atoi(Itoa(n)) == Some(n)
  {
    DigitsItoa(n);
    assert IsDigit(Itoa(n)[0]);
  }

  lemma ItoaInjective(a: nat, b: nat)
    requires Itoa(a) == Itoa(b)
    ensures a == b
  {
    DigitsItoa(a);
    DigitsItoa(b);
  }
}
