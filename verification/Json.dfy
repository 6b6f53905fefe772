/**
 * JSON as a sequence of tokens, as the decoder of jsonstream hands them out: keys and string values are the same
 * kind of token, and colons and commas are none. Text escaping is not part of this model.
 */
module Json {
  import opened Basics

  datatype Token = Begin | End | BeginList | EndList | Str(s: string) | Num(n: int) | Null

  type Tokens = seq<Token>

  /** What a read returns and what is left to be read; the source panics where a token is not of the kind it asks for. */
  datatype Read<+T> = Panic | Got(value: T, rest: Tokens)

  function String(ts: Tokens): Read<string> {
    if ts != [] && ts[0].Str? then Got(ts[0].s, ts[1..]) else Panic
  }

  function Int(ts: Tokens): Read<int> {
    if ts != [] && ts[0].Num? then Got(ts[0].n, ts[1..]) else Panic
  }

  function StringOrEnd(ts: Tokens): Read<Option<string>> {
    if ts == [] then Panic
    else if ts[0] == End then Got(None, ts[1..])
    else if ts[0].Str? then Got(Some(ts[0].s), ts[1..])
    else Panic
  }

  lemma Reads(s: string, n: int, more: Tokens)
    ensures String([Str(s)] + more) == Got(s, more) && Int([Num(n)] + more) == Got(n, more)
  {
    assert ([Str(s)] + more)[1..] == more && ([Num(n)] + more)[1..] == more;
  }

  lemma ReadsDelim(d: Token, more: Tokens)
    ensures Delim([d] + more, d) == Got((), more)
  {
    assert ([d] + more)[1..] == more;
  }

  /** How one key of an object changes the value that is being read. */
  type Field<!T> = (string, T, Tokens) -> Read<T>

  /** The keys and values of an object up to its end, each handled by field. */
  function Fields<T>(ts: Tokens, x: T, field: Field<T>): (r: Read<T>)
    ensures r.Got? ==> |r.rest| < |ts|
    decreases |ts|
  {
    match StringOrEnd(ts)
    case Panic => Panic
    case Got(None, rest) => Got(x, rest)
    case Got(Some(k), rest) =>
      match field(k, x, rest)
      case Panic => Panic
      case Got(y, after) => if |after| <= |rest| then Fields(after, y, field) else Panic
  }

  /** ReadConsumer: null leaves the consumer alone, anything else must be an object. */
  function Consumer<T>(ts: Tokens, zero: T, field: Field<T>): (r: Read<Option<T>>)
    ensures r.Got? ==> |r.rest| < |ts|
  {
    if ts == [] then Panic
    else if ts[0] == Null then Got(None, ts[1..])
    else if ts[0] == Begin then
      match Fields(ts[1..], zero, field)
      case Panic => Panic
      case Got(x, rest) => Got(Some(x), rest)
    else Panic
  }

  function Delim(ts: Tokens, d: Token): Read<()> {
    if ts != [] && ts[0] == d then Got((), ts[1..]) else Panic
  }

  /** One key whose value is read by field. */
  lemma OneField<T>(k: string, ts: Tokens, x: T, field: Field<T>, y: T, more: Tokens)
    requires field(k, x, ts) == Got(y, more) && |more| <= |ts|
    ensures Fields([Str(k)] + ts, x, field) == Fields(more, y, field)
  {
    assert ([Str(k)] + ts)[1..] == ts;
  }

  lemma NoField<T>(more: Tokens, x: T, field: Field<T>)
    ensures Fields([End] + more, x, field) == Got(x, more)
  {
    assert ([End] + more)[1..] == more;
  }

  lemma OneObject<T>(ts: Tokens, zero: T, field: Field<T>, x: T, more: Tokens)
    requires Fields(ts, zero, field) == Got(x, more)
    ensures Consumer([Begin] + ts, zero, field) == Got(Some(x), more)
  {
    assert ([Begin] + ts)[1..] == ts;
  }

  /** The decoder. A method that returns false for ok has panicked. */
  class Decoder {
    var rest: Tokens

    constructor (ts: Tokens)
      ensures rest == ts
    {
      rest := ts;
    }

    method ReadString() returns (ok: bool, s: string)
      modifies this
      ensures match String(old(rest)) case Panic => !ok case Got(v, more) => ok && s == v && rest == more
    {
      ok, s := false, "";
      if rest != [] && rest[0].Str? {
        ok, s := true, rest[0].s;
        rest := rest[1..];
      }
    }

    method ReadInt() returns (ok: bool, n: int)
      modifies this
      ensures match Int(old(rest)) case Panic => !ok case Got(v, more) => ok && n == v && rest == more
    {
      ok, n := false, 0;
      if rest != [] && rest[0].Num? {
        ok, n := true, rest[0].n;
        rest := rest[1..];
      }
    }

    /** The key is None at the end of the object. */
    method ReadStringOrEnd() returns (ok: bool, k: Option<string>)
      modifies this
      ensures match StringOrEnd(old(rest)) case Panic => !ok case Got(v, more) => ok && k == v && rest == more
    {
      ok, k := false, None;
      if rest != [] {
        if rest[0] == End {
          ok := true;
          rest := rest[1..];
        } else if rest[0].Str? {
          ok, k := true, Some(rest[0].s);
          rest := rest[1..];
        }
      }
    }

    /** The number is None at the end of the list. */
    method ReadIntOrEnd() returns (ok: bool, n: Option<int>)
      modifies this
      ensures if old(rest) != [] && old(rest)[0] == EndList then ok && n == None && rest == old(rest)[1..]
              else match Int(old(rest)) case Panic => !ok case Got(v, more) => ok && n == Some(v) && rest == more
    {
      ok, n := false, None;
      if rest != [] && (rest[0] == EndList || rest[0].Num?) {
        ok := true;
        if rest[0].Num? { n := Some(rest[0].n); }
        rest := rest[1..];
      }
    }

    method ReadDelim(d: Token) returns (ok: bool)
      modifies this
      ensures match Delim(old(rest), d) case Panic => !ok case Got(_, more) => ok && rest == more
    {
      if rest == [] || rest[0] != d { return false; }
      ok := true;
      rest := rest[1..];
    }

    /** Whether a list is at its end. */
    method AtEnd() returns (end: bool)
      modifies this
      ensures end <==> old(rest) != [] && old(rest)[0] == EndList
      ensures rest == if end then old(rest)[1..] else old(rest)
    {
      end := rest != [] && rest[0] == EndList;
      if end { rest := rest[1..]; }
    }

    /** How ReadConsumer starts: null, or the start of an object. */
    method ReadObject() returns (ok: bool, isNull: bool)
      modifies this
      ensures if old(rest) != [] && old(rest)[0] in {Null, Begin}
              then ok && isNull == (old(rest)[0] == Null) && rest == old(rest)[1..]
              else !ok
    {
      ok := rest != [] && rest[0] in {Null, Begin};
      isNull := ok && rest[0] == Null;
      if ok { rest := rest[1..]; }
    }
  }

  /** The stream that is written to. */
  class Encoder {
    var out: Tokens

    constructor ()
      ensures out == []
    {
      out := [];
    }

    method Write(ts: Tokens)
      modifies this
      ensures out == old(out) + ts
    {
      out := out + ts;
    }
  }
}
