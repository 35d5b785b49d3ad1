/**
 * Topic addresses: the pattern a client names, split on '/', and the internal
 * topic a broker routes on.
 */
module Address {

  /** A segment that cannot be confused with two: what a slug, id or topic name is. */
  predicate Segment(s: string) { s != "" && '/' !in s }

  /** `pattern.split("/")`. */
  function Split(s: string): (parts: seq<string>)
    ensures |parts| >= 1
    ensures forall p :: p in parts ==> '/' !in p
  {
    if s == "" then [""]
    else if s[0] == '/' then [""] + Split(s[1..])
    else
      var rest := Split(s[1..]);
      [[s[0]] + rest[0]] + rest[1..]
  }

  /** The inverse: the segments with a '/' between them. */
  function Join(parts: seq<string>): string
    requires |parts| >= 1
  {
    if |parts| == 1 then parts[0] else parts[0] + "/" + Join(parts[1..])
  }

  lemma {:induction false} SplitOne(a: string)
    requires '/' !in a
    ensures Split(a) == [a]
  {
    if a != "" {
      SplitOne(a[1..]);
      assert [a[0]] + a[1..] == a;
    }
  }

  lemma {:induction false} SplitCons(a: string, t: string)
    requires '/' !in a
    ensures Split(a + "/" + t) == [a] + Split(t)
  {
    if a == "" {
      assert (a + "/" + t)[1..] == t;
    } else {
      SplitCons(a[1..], t);
      assert (a + "/" + t)[1..] == a[1..] + "/" + t;
      assert [a[0]] + a[1..] == a;
    }
  }

  lemma {:induction false} SplitJoin(parts: seq<string>)
    requires |parts| >= 1
    requires forall p :: p in parts ==> '/' !in p
    ensures Split(Join(parts)) == parts
  {
    if |parts| == 1 {
      SplitOne(parts[0]);
    } else {
      SplitJoin(parts[1..]);
      SplitCons(parts[0], Join(parts[1..]));
    }
  }

  /** Two slash-free segment lists with the same address are the same list. */
  lemma JoinInjective(a: seq<string>, b: seq<string>)
    requires |a| >= 1 && |b| >= 1
    requires forall p :: p in a ==> '/' !in p
    requires forall p :: p in b ==> '/' !in p
    requires Join(a) == Join(b)
    ensures a == b
  {
    SplitJoin(a);
    SplitJoin(b);
  }

  /** Splitting loses nothing: different addresses have different segments. */
  lemma {:induction false} SplitInjective(s: string, t: string)
    requires Split(s) == Split(t)
    ensures s == t
  {
    hide Split;
    SplitStep(s);
    SplitStep(t);
    if s != "" && t != "" {
      SplitInjective(s[1..], t[1..]);
      assert s == [s[0]] + s[1..] && t == [t[0]] + t[1..];
    }
  }

  /** The first character and the segments of the rest can be read off the segments of the whole. */
  lemma SplitStep(s: string)
    ensures s == "" <==> Split(s) == [""]
    ensures s != "" && s[0] == '/' ==> |Split(s)| > 1 && Split(s)[0] == "" && Split(s[1..]) == Split(s)[1..]
    ensures s != "" && s[0] != '/' ==>
              Split(s)[0] != "" && s[0] == Split(s)[0][0] && Split(s[1..]) == [Split(s)[0][1..]] + Split(s)[1..]
  {
    if s != "" && s[0] != '/' {
      var rest := Split(s[1..]);
      assert Split(s) == [[s[0]] + rest[0]] + rest[1..];
      assert rest == [rest[0]] + rest[1..];
    }
  }

  /** Segment counts add up: no segment is lost or merged at a separator. */
  lemma {:induction false} SplitAppend(a: string, b: string)
    ensures Split(a + "/" + b) == Split(a) + Split(b)
    decreases |a|
  {
    hide Split;
    var s := a + "/" + b;
    SplitStep(s);
    SplitStep(a);
    if a == "" {
      assert s[1..] == b;
      assert Split(s) == [""] + Split(b);
    } else {
      SplitAppend(a[1..], b);
      assert s[1..] == a[1..] + "/" + b && s[0] == a[0];
      if a[0] == '/' {
        assert Split(s) == [""] + Split(s[1..]) && Split(a) == [""] + Split(a[1..]);
      } else {
        HeadGrows(a[0], Split(s), Split(s[1..]));
        HeadGrows(a[0], Split(a), Split(a[1..]));
      }
    }
  }

  lemma HeadGrows(c: char, parts: seq<string>, rest: seq<string>)
    requires |parts| >= 1 && parts[0] != "" && parts[0][0] == c && rest == [parts[0][1..]] + parts[1..]
    ensures parts == [[c] + rest[0]] + rest[1..]
  {
    assert parts[0] == [c] + parts[0][1..];
    assert rest[1..] == parts[1..];
  }

  /** An address of exactly two slash-free parts names them, however it was written down. */
  lemma PairDecodes(a: string, b: string, x: string, y: string)
    requires '/' !in a && '/' !in b && a + "/" + b == x + "/" + y
    ensures x == a && y == b
  {
    SplitCons(a, b);
    SplitOne(a);
    SplitOne(b);
    SplitAppend(x, y);
    assert |Split(x)| == 1 && |Split(y)| == 1;
    assert Split(x) == [(Split(x) + Split(y))[0]] && Split(y) == [(Split(x) + Split(y))[1]];
    SplitInjective(x, a);
    SplitInjective(y, b);
  }

  /** A first part without a separator ends at the first separator. */
  lemma HeadDecodes(a: string, x: string, b: string, y: string)
    requires '/' !in a && '/' !in b && a + "/" + x == b + "/" + y
    ensures a == b && x == y
  {
    SplitCons(a, x);
    SplitCons(b, y);
    assert a == Split(a + "/" + x)[0] && Split(x) == Split(a + "/" + x)[1..];
    assert b == Split(b + "/" + y)[0] && Split(y) == Split(b + "/" + y)[1..];
    SplitInjective(x, y);
  }

  lemma {:induction false} SplitSingle(s: string)
    ensures |Split(s)| == 1 <==> '/' !in s
  {
    if s != "" {
      SplitSingle(s[1..]);
      assert s == [s[0]] + s[1..];
    }
  }

  lemma SplitTwo(a: string, b: string, t: string)
    requires '/' !in a && '/' !in b
    ensures Split(a + "/" + (b + "/" + t)) == [a, b] + Split(t)
  {
    hide Split;
    SplitCons(b, t);
    SplitCons(a, b + "/" + t);
    assert [a] + ([b] + Split(t)) == [a, b] + Split(t);
  }

  lemma SplitThree(a: string, b: string, c: string, t: string)
    requires '/' !in a && '/' !in b && '/' !in c
    ensures Split(a + "/" + (b + "/" + (c + "/" + t))) == [a, b, c] + Split(t)
  {
    hide Split;
    SplitTwo(b, c, t);
    SplitCons(a, b + "/" + (c + "/" + t));
    assert [a] + ([b, c] + Split(t)) == [a, b, c] + Split(t);
  }
}
