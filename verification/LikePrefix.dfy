/** Prefix search by LIKE: escapeLikePrefix in internal/galaxystore/search.go and
    the predicate it feeds (section 8.5 of SQL-92). */
module LikePrefix {
  import opened Basics

  const ESCAPE := '\\'

  predicate IsSpecial(c: char) {
    c == '\\' || c == '%' || c == '_'
  }

  /** escapeLikePrefix: one pass, each special character behind a backslash. */
  function Escaped(value: string): string {
    if value == "" then ""
    else (if IsSpecial(value[0]) then [ESCAPE, value[0]] else [value[0]]) + Escaped(value[1..])
  }

  /** Each character is escaped by itself: a backslash, a percent sign and an underscore
      get a backslash in front, and no other does. */
  lemma {:induction false} EscapesExactly(value: string, more: string, c: char)
    ensures Escaped([c]) == if c == '\\' then "\\\\" else if c == '%' then "\\%" else if c == '_' then "\\_" else [c]
    ensures Escaped(value + more) == Escaped(value) + Escaped(more)
  {
    assert [c][1..] == "";
    if value == "" {
      assert value + more == more;
    } else {
      EscapesExactly(value[1..], more, c);
      assert (value + more)[1..] == value[1..] + more;
    }
  }

  /** s LIKE pattern ESCAPE '\'; None where the pattern ends in a lone escape, which is an error. */
  function Like(s: string, pattern: string): Option<bool>
    decreases |pattern|, |s|
  {
    if pattern == "" then Some(s == "")
    else if pattern[0] == '%' then
      if s == "" then Like(s, pattern[1..])
      else
        var here, later := Like(s, pattern[1..]), Like(s[1..], pattern);
        if here.None? || later.None? then None else Some(here.value || later.value)
    else if pattern[0] == ESCAPE then
      if |pattern| == 1 then None
      else if s == "" then Matched(false, Like(s, pattern[2..]))
      else Matched(s[0] == pattern[1], Like(s[1..], pattern[2..]))
    else if s == "" then Matched(false, Like(s, pattern[1..]))
    else Matched(pattern[0] == '_' || s[0] == pattern[0], Like(s[1..], pattern[1..]))
  }

  /** The match of one character and of the rest. */
  function Matched(one: bool, rest: Option<bool>): Option<bool> {
    if rest.None? then None else Some(one && rest.value)
  }

  /** lower(), character by character. */
  function Lowered(lower: char -> char, s: string): string {
    seq(|s|, i requires 0 <= i < |s| => lower(s[i]))
  }

  /** Lower-casing neither touches nor produces special characters. */
  ghost predicate SparesSpecials(lower: char -> char) {
    forall c: char :: if IsSpecial(c) then lower(c) == c else !IsSpecial(lower(c))
  }

  /** A trailing percent sign matches anything. */
  lemma {:induction false} AnythingMatches(s: string)
    ensures Like(s, "%") == Some(true)
  {
    if s == "" {
      assert "%"[1..] == "";
    } else {
      AnythingMatches(s[1..]);
      assert Like(s, "%"[1..]) == Some(false);
    }
  }

  lemma LoweredStep(lower: char -> char, q: string)
    requires q != "" && SparesSpecials(lower)
    ensures var c, rest := q[0], Lowered(lower, Escaped(q[1..]));
            Lowered(lower, Escaped(q)) == (if IsSpecial(c) then [ESCAPE, c] else [lower(c)]) + rest
  {
    var head := if IsSpecial(q[0]) then [ESCAPE, q[0]] else [q[0]];
    LoweredConcat(lower, head, Escaped(q[1..]));
    LoweredHead(lower, q[0]);
  }

  lemma LoweredHead(lower: char -> char, c: char)
    requires SparesSpecials(lower)
    ensures Lowered(lower, if IsSpecial(c) then [ESCAPE, c] else [c])
         == if IsSpecial(c) then [ESCAPE, c] else [lower(c)]
  {
    assert IsSpecial(ESCAPE) && lower(ESCAPE) == ESCAPE;
  }

  lemma LoweredConcat(lower: char -> char, a: string, b: string)
    ensures Lowered(lower, a + b) == Lowered(lower, a) + Lowered(lower, b)
  {
  }

  /** The escaped and lowered query followed by a percent sign matches exactly the
      names that start with the query, letter case aside, and is never an error. */
  lemma {:induction false} LikeIsPrefix(lower: char -> char, q: string, name: string)
    requires SparesSpecials(lower)
    ensures Like(name, Lowered(lower, Escaped(q)) + "%") == Some(Lowered(lower, q) <= name)
    decreases |q|
  {
    var pattern := Lowered(lower, Escaped(q)) + "%";
    if q == "" {
      assert pattern == "%";
      AnythingMatches(name);
    } else {
      LoweredStep(lower, q);
      var rest := Lowered(lower, Escaped(q[1..])) + "%";
      LikeIsPrefix(lower, q[1..], if name == "" then name else name[1..]);
      assert Lowered(lower, q) == [lower(q[0])] + Lowered(lower, q[1..]);
      if IsSpecial(q[0]) {
        assert pattern[0] == ESCAPE && pattern[1] == q[0] && pattern[2..] == rest;
      } else {
        assert pattern[0] == lower(q[0]) && pattern[1..] == rest;
      }
      if name != "" {
        assert name == [name[0]] + name[1..];
      }
    }
  }

  /** The query the search runs: both sides are lowered. */
  lemma SearchFindsPrefixes(lower: char -> char, q: string, name: string)
    requires SparesSpecials(lower)
    ensures Like(Lowered(lower, name), Lowered(lower, Escaped(q)) + "%")
         == Some(Lowered(lower, q) <= Lowered(lower, name))
  {
    LikeIsPrefix(lower, q, Lowered(lower, name));
  }

  /** Without the escape an underscore in the query finds names that do not start with it. */
  lemma UnescapedFindsMore()
    ensures Like("ab", "_" + "%") == Some(true) && !("_" <= "ab")
  {
    AnythingMatches("b");
    assert ("_" + "%")[1..] == "%" && "ab"[1..] == "b";
  }
}
