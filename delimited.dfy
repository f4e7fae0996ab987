/** The comma-space encoding of a multi-select answer: a list of selected
    options is stored as one string, joined with ", ", and read back by
    splitting on ", " from the left (JavaScript's String.prototype.split with
    a string separator, and Array.prototype.join). */
module Delimited {

  /** True iff `s` contains the delimiter ", " somewhere. */
  predicate HasDelim(s: string)
  {
    |s| >= 2 && ((s[0] == ',' && s[1] == ' ') || HasDelim(s[1..]))
  }

  /** Joins the pieces with ", " between consecutive pieces. */
  function Join(xs: seq<string>): string
  {
    if |xs| == 0 then ""
    else if |xs| == 1 then xs[0]
    else xs[0] + ", " + Join(xs[1..])
  }

  /** Splits `s` at every ", ", scanning from the left; matches never
      overlap. Like split(', '), the empty string splits into [""]. */
  function Split(s: string): (r: seq<string>)
    ensures |r| >= 1
    decreases |s|
  {
    if |s| == 0 then [""]
    else if |s| >= 2 && s[0] == ',' && s[1] == ' ' then [""] + Split(s[2..])
    else
      var t := Split(s[1..]);
      [[s[0]] + t[0]] + t[1..]
  }

  /** No piece of a split contains the delimiter, and the first piece is a
      prefix of the string split. */
  lemma {:induction false} SplitPiecesClean(s: string)
    ensures Split(s)[0] <= s
    ensures forall i :: 0 <= i < |Split(s)| ==> !HasDelim(Split(s)[i])
    decreases |s|
  {
    if |s| == 0 {
    } else if |s| >= 2 && s[0] == ',' && s[1] == ' ' {
      SplitPiecesClean(s[2..]);
      var t := Split(s[2..]);
      assert Split(s) == [""] + t;
    } else {
      SplitPiecesClean(s[1..]);
      var t := Split(s[1..]);
      var head := [s[0]] + t[0];
      assert head[1..] == t[0];
      assert Split(s) == [head] + t[1..];
    }
  }

  /** Joining a piece in front of at least one more piece puts one
      delimiter between them. */
  lemma JoinCons(x: string, t: seq<string>)
    requires |t| >= 1
    ensures Join([x] + t) == x + ", " + Join(t)
  {
    var r := [x] + t;
    assert r[0] == x && r[1..] == t;
  }

  /** Joining what was split gives back the original string, for every
      string. */
  lemma {:induction false} JoinSplit(s: string)
    ensures Join(Split(s)) == s
    decreases |s|
  {
    if |s| == 0 {
    } else if |s| >= 2 && s[0] == ',' && s[1] == ' ' {
      JoinSplit(s[2..]);
      JoinSplitAtDelim(s);
    } else {
      JoinSplit(s[1..]);
      JoinSplitAtChar(s);
    }
  }

  /** The inductive step of JoinSplit when `s` starts with the delimiter. */
  lemma JoinSplitAtDelim(s: string)
    requires |s| >= 2 && s[0] == ',' && s[1] == ' '
    requires Join(Split(s[2..])) == s[2..]
    ensures Join(Split(s)) == s
  {
    var t := Split(s[2..]);
    assert Split(s) == [""] + t;
    JoinCons("", t);
    assert "" + ", " == ", ";
    assert s == ", " + s[2..];
  }

  /** The inductive step of JoinSplit when `s` starts with anything else. */
  lemma JoinSplitAtChar(s: string)
    requires |s| >= 1 && !(|s| >= 2 && s[0] == ',' && s[1] == ' ')
    requires Join(Split(s[1..])) == s[1..]
    ensures Join(Split(s)) == s
  {
    var t := Split(s[1..]);
    assert t == [t[0]] + t[1..];
    assert Split(s) == [[s[0]] + t[0]] + t[1..];
    JoinPrepend(s[0], t[0], t[1..]);
    assert s == [s[0]] + s[1..];
  }

  /** Prepending a character to the first piece prepends it to the joined
      string. */
  lemma JoinPrepend(c: char, x: string, rest: seq<string>)
    ensures Join([[c] + x] + rest) == [c] + Join([x] + rest)
  {
    if rest == [] {
      assert [[c] + x] + rest == [[c] + x];
      assert [x] + rest == [x];
    } else {
      var j := Join(rest);
      calc {
        Join([[c] + x] + rest);
        { JoinCons([c] + x, rest); }
        [c] + x + ", " + j;
        { Assoc([c] + x, ", ", j); }
        [c] + x + (", " + j);
        { Assoc([c], x, ", " + j); }
        [c] + (x + (", " + j));
        { Assoc(x, ", ", j); JoinCons(x, rest); }
        [c] + Join([x] + rest);
      }
    }
  }

  lemma Assoc(a: string, b: string, c: string)
    ensures a + b + c == a + (b + c)
  {
  }

  /** A string without a comma cannot contain the delimiter. */
  lemma {:induction false} NoCommaNoDelim(s: string)
    requires ',' !in s
    ensures !HasDelim(s)
    decreases |s|
  {
    if |s| >= 2 {
      assert s[0] != ',';
      assert forall c :: c in s[1..] ==> c in s;
      NoCommaNoDelim(s[1..]);
    }
  }

  /** Splitting a piece that holds no delimiter yields that piece alone. */
  lemma {:induction false} SplitClean(x: string)
    requires !HasDelim(x)
    ensures Split(x) == [x]
    decreases |x|
  {
    if |x| == 0 {
    } else {
      assert !(|x| >= 2 && x[0] == ',' && x[1] == ' ');
      SplitClean(x[1..]);
      assert [x[0]] + x[1..] == x;
    }
  }

  /** The first ", " in `x + ", " + rest` is the one that was added, when
      `x` holds none of its own. */
  lemma {:induction false} SplitAfterClean(x: string, rest: string)
    requires !HasDelim(x)
    ensures Split(x + ", " + rest) == [x] + Split(rest)
    decreases |x|
  {
    var s := x + ", " + rest;
    if |x| == 0 {
      assert s == ", " + rest;
      assert s[2..] == rest;
    } else {
      assert !(s[0] == ',' && s[1] == ' ') by {
        if |x| >= 2 {
          assert s[0] == x[0] && s[1] == x[1];
        } else {
          assert s[1] == ',';
        }
      }
      SplitAfterClean(x[1..], rest);
      assert s[1..] == x[1..] + ", " + rest;
      assert [x[0]] + x[1..] == x;
    }
  }

  /** Splitting what was joined gives back the pieces, provided there is at
      least one piece and no piece contains the delimiter itself. */
  lemma {:induction false} SplitJoin(xs: seq<string>)
    requires |xs| >= 1
    requires forall i :: 0 <= i < |xs| ==> !HasDelim(xs[i])
    ensures Split(Join(xs)) == xs
    decreases |xs|
  {
    if |xs| == 1 {
      SplitClean(xs[0]);
    } else {
      SplitJoin(xs[1..]);
      SplitAfterClean(xs[0], Join(xs[1..]));
      assert [xs[0]] + xs[1..] == xs;
    }
  }

  /** Two or more pieces always leave a delimiter in the joined string, so
      it is empty only for no pieces or for one empty piece. */
  lemma {:induction false} JoinEmpty(xs: seq<string>)
    ensures Join(xs) == "" <==> (xs == [] || xs == [""])
    decreases |xs|
  {
    if |xs| >= 2 {
      assert |Join(xs)| >= 2;
    }
  }
}
