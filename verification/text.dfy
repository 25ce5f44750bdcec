/** String building blocks of the URL and message builders. */
module Text {

  /** `sep.join(parts)`. */
  function Join(sep: string, parts: seq<string>): string
    decreases |parts|
  {
    if |parts| == 0 then ""
    else if |parts| == 1 then parts[0]
    else parts[0] + sep + Join(sep, parts[1..])
  }

  /** Number of occurrences of `c` in `s`. */
  function Count(c: char, s: string): nat
    decreases |s|
  {
    if |s| == 0 then 0 else (if s[0] == c then 1 else 0) + Count(c, s[1..])
  }

  lemma {:induction false} CountZero(c: char, s: string)
    ensures Count(c, s) == 0 <==> c !in s
    decreases |s|
  {
    if |s| > 0 {
      CountZero(c, s[1..]);
      assert s == [s[0]] + s[1..];
    }
  }

  lemma {:induction false} CountConcat(c: char, a: string, b: string)
    ensures Count(c, a + b) == Count(c, a) + Count(c, b)
    decreases |a|
  {
    if |a| == 0 {
      assert a + b == b;
    } else {
      assert (a + b)[1..] == a[1..] + b;
      CountConcat(c, a[1..], b);
    }
  }

  /** Joining parts free of `c` with a separator leaves exactly the
      separator's occurrences of `c`: one batch per gap between parts. */
  lemma {:induction false} JoinCount(c: char, sep: string, parts: seq<string>)
    requires forall i :: 0 <= i < |parts| ==> c !in parts[i]
    ensures Count(c, Join(sep, parts)) == if |parts| == 0 then 0 else (|parts| - 1) * Count(c, sep)
    decreases |parts|
  {
    if |parts| == 1 {
      CountZero(c, parts[0]);
    } else if |parts| > 1 {
      JoinCount(c, sep, parts[1..]);
      CountZero(c, parts[0]);
      CountConcat(c, parts[0] + sep, Join(sep, parts[1..]));
      CountConcat(c, parts[0], sep);
    }
  }

  /** `s.replace("'", '"')`: every single quote becomes a double quote,
      every other character stays where it was. */
  function ReplaceQuotes(s: string): (r: string)
    ensures |r| == |s|
    ensures '\'' !in r
  {
    seq(|s|, i requires 0 <= i < |s| => if s[i] == '\'' then '"' else s[i])
  }

  lemma ReplaceQuotesConcat(a: string, b: string)
    ensures ReplaceQuotes(a + b) == ReplaceQuotes(a) + ReplaceQuotes(b)
  {
    var l, r := ReplaceQuotes(a + b), ReplaceQuotes(a) + ReplaceQuotes(b);
    assert |l| == |r|;
    forall i | 0 <= i < |l| ensures l[i] == r[i] {
      if i < |a| {
        assert (a + b)[i] == a[i];
      } else {
        assert (a + b)[i] == b[i - |a|];
      }
    }
  }

  /** A string without single quotes is left unchanged. */
  lemma ReplaceQuotesNoQuote(s: string)
    requires '\'' !in s
    ensures ReplaceQuotes(s) == s
  {
    var r := ReplaceQuotes(s);
    forall i | 0 <= i < |s| ensures r[i] == s[i] {
      assert s[i] in s;
    }
  }

  lemma ReplaceQuotesIdempotent(s: string)
    ensures ReplaceQuotes(ReplaceQuotes(s)) == ReplaceQuotes(s)
  {
    ReplaceQuotesNoQuote(ReplaceQuotes(s));
  }

  /** Splits a `key=value` query fragment at its first `c`: the key holds
      no `c`, and the two halves rebuild the input around that `c`. */
  function SplitAtFirst(c: char, s: string): (kv: (string, string))
    ensures c !in kv.0
    ensures c in s ==> s == kv.0 + [c] + kv.1
    ensures c !in s ==> kv == (s, "")
    decreases |s|
  {
    if |s| == 0 then ("", "")
    else if s[0] == c then ("", s[1..])
    else
      var rest := SplitAtFirst(c, s[1..]);
      assert s == [s[0]] + s[1..];
      ([s[0]] + rest.0, rest.1)
  }

  /** Decoding a fragment built as key + c + value recovers the key and the
      value whenever the key itself holds no `c`. */
  lemma {:induction false} SplitAtFirstInverse(c: char, key: string, value: string)
    requires c !in key
    ensures SplitAtFirst(c, key + [c] + value) == (key, value)
    decreases |key|
  {
    var s := key + [c] + value;
    if |key| == 0 {
      assert s[0] == c && s[1..] == value;
    } else {
      assert s[0] == key[0];
      assert s[1..] == key[1..] + [c] + value;
      assert key[0] != c;
      SplitAtFirstInverse(c, key[1..], value);
      assert [key[0]] + key[1..] == key;
    }
  }

  /** `f` applied to each string, in order. */
  function Map(f: string -> string, xs: seq<string>): (ys: seq<string>)
    ensures |ys| == |xs|
    ensures forall i :: 0 <= i < |xs| ==> ys[i] == f(xs[i])
  {
    seq(|xs|, i requires 0 <= i < |xs| => f(xs[i]))
  }

  /** Replacing quotes commutes with joining. */
  lemma {:induction false} ReplaceQuotesJoin(sep: string, parts: seq<string>)
    ensures ReplaceQuotes(Join(sep, parts)) == Join(ReplaceQuotes(sep), Map(ReplaceQuotes, parts))
    decreases |parts|
  {
    if |parts| > 1 {
      ReplaceQuotesJoin(sep, parts[1..]);
      assert Map(ReplaceQuotes, parts)[1..] == Map(ReplaceQuotes, parts[1..]);
      ReplaceQuotesConcat(parts[0] + sep, Join(sep, parts[1..]));
      ReplaceQuotesConcat(parts[0], sep);
    }
  }

  /** `s` holds no `", "`: no comma is directly followed by a space. */
  predicate NoCommaSpace(s: string)
  {
    forall i :: 0 <= i < |s| - 1 ==> !(s[i] == ',' && s[i + 1] == ' ')
  }

  /** `s.split(", ")`: the pieces between the separators, left to right;
      a string without a separator is its own single piece. */
  function SplitCommaSpace(s: string): (parts: seq<string>)
    ensures |parts| >= 1
    decreases |s|
  {
    if |s| == 0 then [""]
    else if |s| >= 2 && s[0] == ',' && s[1] == ' ' then [""] + SplitCommaSpace(s[2..])
    else
      var rest := SplitCommaSpace(s[1..]);
      [[s[0]] + rest[0]] + rest[1..]
  }

  lemma {:induction false} SplitWithoutSeparator(s: string)
    requires NoCommaSpace(s)
    ensures SplitCommaSpace(s) == [s]
    decreases |s|
  {
    if |s| > 0 {
      assert |s| >= 2 ==> !(s[0] == ',' && s[1] == ' ');
      assert NoCommaSpace(s[1..]) by {
        forall i | 0 <= i < |s[1..]| - 1 ensures !(s[1..][i] == ',' && s[1..][i + 1] == ' ') {
          assert s[1..][i] == s[i + 1] && s[1..][i + 1] == s[i + 2];
        }
      }
      SplitWithoutSeparator(s[1..]);
      assert [s[0]] + s[1..] == s;
    }
  }

  /** The first separator of `p + ", " + rest` is the one after `p` when
      `p` holds none: the first comma of the separator cannot pair with
      the end of `p`. */
  lemma {:induction false} SplitAfterFirst(p: string, rest: string)
    requires NoCommaSpace(p)
    ensures SplitCommaSpace(p + ", " + rest) == [p] + SplitCommaSpace(rest)
    decreases |p|
  {
    var s := p + ", " + rest;
    if |p| == 0 {
      assert s[0] == ',' && s[1] == ' ' && s[2..] == rest;
    } else {
      assert s[0] == p[0];
      assert s[1] == if |p| >= 2 then p[1] else ',';
      assert !(s[0] == ',' && s[1] == ' ');
      assert NoCommaSpace(p[1..]) by {
        forall i | 0 <= i < |p[1..]| - 1 ensures !(p[1..][i] == ',' && p[1..][i + 1] == ' ') {
          assert p[1..][i] == p[i + 1] && p[1..][i + 1] == p[i + 2];
        }
      }
      assert s[1..] == p[1..] + ", " + rest;
      SplitAfterFirst(p[1..], rest);
      assert [p[0]] + p[1..] == p;
    }
  }

  /** Splitting at `", "` undoes joining with `", "` whenever at least one
      part is joined and no part holds the separator itself. */
  lemma {:induction false} SplitJoin(parts: seq<string>)
    requires |parts| >= 1
    requires forall i :: 0 <= i < |parts| ==> NoCommaSpace(parts[i])
    ensures SplitCommaSpace(Join(", ", parts)) == parts
    decreases |parts|
  {
    if |parts| == 1 {
      SplitWithoutSeparator(parts[0]);
    } else {
      SplitAfterFirst(parts[0], Join(", ", parts[1..]));
      SplitJoin(parts[1..]);
      assert [parts[0]] + parts[1..] == parts;
    }
  }
}
