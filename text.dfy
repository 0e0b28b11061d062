/** The two pieces of Go's standard library the gatekeeper relies on:
    `strings.Contains` and `fmt.Sprintf` with the `%s` verb. */
module Text {

  /** `sub` occurs in `s` starting at index `i`. */
  ghost predicate OccursAt(s: string, sub: string, i: int)
  {
    0 <= i && i + |sub| <= |s| && s[i..i + |sub|] == sub
  }

  /** Reference definition of substring containment. */
  ghost predicate Occurs(s: string, sub: string)
  {
    exists i :: OccursAt(s, sub, i)
  }

  lemma OccursAtShift(s: string, sub: string, i: int)
    requires |s| > 0 && 0 <= i
    ensures OccursAt(s[1..], sub, i) <==> OccursAt(s, sub, i + 1)
  {
    if 0 <= i && i + |sub| <= |s| - 1 {
      assert s[1..][i..i + |sub|] == s[i + 1..i + 1 + |sub|];
    }
  }

  /** When `sub` does not start `s`, it occurs in `s` exactly when it occurs
      in `s` without its first character. */
  lemma OccursInTail(s: string, sub: string)
    requires |sub| <= |s| && s[..|sub|] != sub
    ensures Occurs(s, sub) <==> Occurs(s[1..], sub)
  {
    if Occurs(s[1..], sub) {
      var i :| OccursAt(s[1..], sub, i);
      OccursAtShift(s, sub, i);
    }
    if Occurs(s, sub) {
      var j :| OccursAt(s, sub, j);
      assert j != 0;
      OccursAtShift(s, sub, j - 1);
    }
  }

  /** strings.Contains: scans `s` for the first position where `sub` starts,
      and so finds `sub` exactly when it occurs somewhere in `s`. */
  function Contains(s: string, sub: string): (r: bool)
    ensures r <==> Occurs(s, sub)
    decreases |s|
  {
    if |s| < |sub| then false
    else if s[..|sub|] == sub then
      assert OccursAt(s, sub, 0);
      true
    else
      OccursInTail(s, sub);
      Contains(s[1..], sub)
  }

  /** Whatever surrounds `sub`, the result contains it. */
  lemma ContainsInfix(a: string, sub: string, b: string)
    ensures Contains(a + sub + b, sub)
  {
    var s := a + sub + b;
    assert s[|a|..|a| + |sub|] == sub;
    assert OccursAt(s, sub, |a|);
  }

  /** A string that contains a non-empty `sub` contains its first character. */
  lemma ContainsFirstChar(s: string, sub: string)
    requires |sub| > 0 && Contains(s, sub)
    ensures sub[0] in s
  {
    var i :| OccursAt(s, sub, i);
    assert s[i] == s[i..i + |sub|][0];
  }

  /** fmt.Sprintf restricted to what the gatekeeper's format strings use:
      `%s` takes the next argument (or prints `%!s(MISSING)` when there is
      none, as Go does), `%%` prints one `%`, every other character is copied. */
  function Sprintf(format: string, args: seq<string>): string
    decreases |format|
  {
    if format == [] then ""
    else if format[0] == '%' && |format| >= 2 && format[1] == 's' then
      if args == [] then "%!s(MISSING)" + Sprintf(format[2..], [])
      else args[0] + Sprintf(format[2..], args[1..])
    else if format[0] == '%' && |format| >= 2 && format[1] == '%' then
      "%" + Sprintf(format[2..], args)
    else [format[0]] + Sprintf(format[1..], args)
  }

  /** Text without a `%` is copied unchanged and consumes no argument. */
  lemma {:induction false} SprintfLiteral(lit: string, rest: string, args: seq<string>)
    requires '%' !in lit
    ensures Sprintf(lit + rest, args) == lit + Sprintf(rest, args)
  {
    if lit != [] {
      assert lit[0] in lit;
      assert (lit + rest)[0] == lit[0];
      assert (lit + rest)[1..] == lit[1..] + rest;
      SprintfLiteral(lit[1..], rest, args);
      assert Sprintf(lit + rest, args) == [lit[0]] + Sprintf(lit[1..] + rest, args);
      assert lit == [lit[0]] + lit[1..];
      assert [lit[0]] + (lit[1..] + Sprintf(rest, args)) == lit + Sprintf(rest, args);
    } else {
      assert lit + rest == rest;
    }
  }

  /** A `%s` verb is replaced by the next argument. */
  lemma SprintfVerb(rest: string, arg: string, args: seq<string>)
    ensures Sprintf("%s" + rest, [arg] + args) == arg + Sprintf(rest, args)
  {
    assert ("%s" + rest)[2..] == rest;
    assert ([arg] + args)[1..] == args;
  }

  /** A format made of `%s` verbs each followed by `%`-free text, given one
      argument per verb, interleaves the arguments with that text. */
  lemma {:induction false} SprintfVerbs(texts: seq<string>, args: seq<string>)
    requires |texts| == |args|
    requires forall k :: 0 <= k < |texts| ==> '%' !in texts[k]
    ensures Sprintf(VerbsFormat(texts), args) == Interleave(args, texts)
  {
    if texts != [] {
      assert VerbsFormat(texts) == "%s" + (texts[0] + VerbsFormat(texts[1..]));
      assert args == [args[0]] + args[1..];
      SprintfVerb(texts[0] + VerbsFormat(texts[1..]), args[0], args[1..]);
      SprintfLiteral(texts[0], VerbsFormat(texts[1..]), args[1..]);
      SprintfVerbs(texts[1..], args[1..]);
    }
  }

  /** `%s` followed by texts[0], then `%s` followed by texts[1], and so on. */
  function VerbsFormat(texts: seq<string>): string
  {
    if texts == [] then "" else "%s" + texts[0] + VerbsFormat(texts[1..])
  }

  /** args[0] followed by texts[0], then args[1] followed by texts[1], and so on. */
  function Interleave(args: seq<string>, texts: seq<string>): string
    requires |args| == |texts|
  {
    if args == [] then "" else args[0] + texts[0] + Interleave(args[1..], texts[1..])
  }

  lemma InterleaveOne(a: string, x: string)
    ensures Interleave([a], [x]) == a + x
  {
    assert Interleave([a], [x]) == a + x + Interleave([], []);
  }

  lemma InterleaveThree(a: string, b: string, c: string, x: string, y: string, z: string)
    ensures Interleave([a, b, c], [x, y, z]) == a + x + b + y + c + z
  {
    InterleaveOne(c, z);
    assert [a, b, c][1..] == [b, c] && [x, y, z][1..] == [y, z];
    assert [b, c][1..] == [c] && [y, z][1..] == [z];
  }

  lemma InterleaveFour(a: string, b: string, c: string, d: string,
                       w: string, x: string, y: string, z: string)
    ensures Interleave([a, b, c, d], [w, x, y, z]) == a + w + b + x + c + y + d + z
  {
    InterleaveThree(b, c, d, x, y, z);
    assert [a, b, c, d][1..] == [b, c, d] && [w, x, y, z][1..] == [x, y, z];
  }

  lemma VerbsFormatThree(x: string, y: string, z: string)
    ensures VerbsFormat([x, y, z]) == "%s" + x + "%s" + y + "%s" + z
  {
    assert [x, y, z][1..] == [y, z] && [y, z][1..] == [z];
    assert VerbsFormat([z]) == "%s" + z + VerbsFormat([]);
  }

  /** A three-verb format filled in. */
  lemma SprintfThree(x: string, y: string, z: string, a: string, b: string, c: string)
    requires '%' !in x && '%' !in y && '%' !in z
    ensures Sprintf("%s" + x + "%s" + y + "%s" + z, [a, b, c]) == a + x + b + y + c + z
  {
    VerbsFormatThree(x, y, z);
    SprintfVerbs([x, y, z], [a, b, c]);
    InterleaveThree(a, b, c, x, y, z);
  }

  /** A four-verb format filled in. */
  lemma SprintfFour(w: string, x: string, y: string, z: string,
                    a: string, b: string, c: string, d: string)
    requires '%' !in w && '%' !in x && '%' !in y && '%' !in z
    ensures Sprintf("%s" + w + "%s" + x + "%s" + y + "%s" + z, [a, b, c, d])
         == a + w + b + x + c + y + d + z
  {
    assert [w, x, y, z][1..] == [x, y, z];
    VerbsFormatThree(x, y, z);
    assert VerbsFormat([w, x, y, z]) == "%s" + w + ("%s" + x + "%s" + y + "%s" + z);
    assert "%s" + w + ("%s" + x + "%s" + y + "%s" + z) == "%s" + w + "%s" + x + "%s" + y + "%s" + z;
    SprintfVerbs([w, x, y, z], [a, b, c, d]);
    InterleaveFour(a, b, c, d, w, x, y, z);
  }
}
