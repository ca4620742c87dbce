/**
 * Identifier case conversion in openai-func-enums-macros/src/lib.rs:
 * `to_snake_case`, which names the fields of the generated response structs,
 * and serde's `rename_all = "PascalCase"` rule, which those structs carry and
 * which turns the field names back into the keys the model sends.
 *
 * Case is ASCII case: a character outside 'A'..'Z' counts as not upper-case
 * and is kept as it is.
 */
module Naming {

  predicate IsUpper(c: char) { 'A' <= c <= 'Z' }

  predicate IsLower(c: char) { 'a' <= c <= 'z' }

  predicate IsDigit(c: char) { '0' <= c <= '9' }

  function ToLower(c: char): (r: char)
    ensures !IsUpper(r)
    ensures IsUpper(c) ==> IsLower(r)
    ensures !IsUpper(c) ==> r == c
  {
    if IsUpper(c) then (c as int + 32) as char else c
  }

  /** `char::to_ascii_uppercase`. */
  function ToUpper(c: char): (r: char)
    ensures IsLower(c) ==> IsUpper(r) && ToLower(r) == c
    ensures !IsLower(c) ==> r == c
  {
    if IsLower(c) then (c as int - 32) as char else c
  }

  /** What a character after the first becomes: an upper-case letter gets an underscore in front. */
  function Piece(c: char): string
  {
    if IsUpper(c) then ['_', ToLower(c)] else [ToLower(c)]
  }

  function SnakeTail(t: string): string
  {
    if t == [] then [] else Piece(t[0]) + SnakeTail(t[1..])
  }

  /** The snake_case form of an identifier: no underscore goes before the first character. */
  function SnakeCase(s: string): string
  {
    if s == [] then [] else [ToLower(s[0])] + SnakeTail(s[1..])
  }

  /** Upper-case characters after the first one. */
  function InnerUpperCount(t: string): nat
  {
    if t == [] then 0 else (if IsUpper(t[0]) then 1 else 0) + InnerUpperCount(t[1..])
  }

  /** `to_snake_case`: the `char_indices` loop pushing onto a `String`. */
  method ToSnakeCase(camelCase: string) returns (snakeCase: string)
    ensures snakeCase == SnakeCase(camelCase)
  {
    snakeCase := "";
    var i := 0;
    while i < |camelCase|
      invariant 0 <= i <= |camelCase|
      invariant snakeCase == SnakeCase(camelCase[..i])
    {
      var ch := camelCase[i];
      if i > 0 && IsUpper(ch) {
        snakeCase := snakeCase + ['_'];
      }
      snakeCase := snakeCase + [ToLower(ch)];
      SnakeCaseStep(camelCase, i);
      i := i + 1;
    }
    assert camelCase[..|camelCase|] == camelCase;
  }

  lemma {:induction false} SnakeTailAppend(t: string, c: char)
    ensures SnakeTail(t + [c]) == SnakeTail(t) + Piece(c)
  {
    if t == [] {
      assert [c][1..] == [];
    } else {
      assert (t + [c])[1..] == t[1..] + [c];
      SnakeTailAppend(t[1..], c);
    }
  }

  /** One iteration of the loop: the converted prefix grows by the converted character. */
  lemma SnakeCaseStep(s: string, i: nat)
    requires i < |s|
    ensures SnakeCase(s[..i + 1]) == SnakeCase(s[..i]) + (if i > 0 && IsUpper(s[i]) then ['_', ToLower(s[i])] else [ToLower(s[i])])
  {
    if i > 0 {
      assert s[..i + 1][1..] == s[..i][1..] + [s[i]];
      SnakeTailAppend(s[..i][1..], s[i]);
    } else {
      assert s[..1][1..] == [];
    }
  }

  // ---------------------------------------------------------------------
  // Properties of to_snake_case
  // ---------------------------------------------------------------------

  /** After the first character, pieces convert independently. */
  lemma {:induction false} SnakeTailConcat(a: string, b: string)
    ensures SnakeTail(a + b) == SnakeTail(a) + SnakeTail(b)
    decreases a
  {
    if a == [] {
      assert a + b == b;
    } else {
      assert (a + b)[1..] == a[1..] + b;
      SnakeTailConcat(a[1..], b);
    }
  }

  /** Pieces of the documented example: lower-case runs convert to themselves. */
  lemma LowerRuns()
    ensures SnakeTail("ello") == "ello" && SnakeTail("orld") == "orld"
  {
    SnakeCaseOfLower("ello");
    SnakeCaseOfLower("orld");
  }

  /** The second word of the documented example gets its underscore. */
  lemma WorldTail()
    ensures SnakeTail("World") == "_world"
  {
    LowerRuns();
    assert "World"[1..] == "orld";
  }

  /** The tail of the documented example: one underscore, before the inner capital. */
  lemma HelloWorldTail()
    ensures SnakeTail("elloWorld") == "ello_world"
  {
    LowerRuns();
    WorldTail();
    assert "elloWorld" == "ello" + "World";
    SnakeTailConcat("ello", "World");
  }

  /** The documented example: "HelloWorld" becomes "hello_world". */
  lemma HelloWorldExample()
    ensures SnakeCase("HelloWorld") == "hello_world"
  {
    HelloWorldTail();
    var s := "HelloWorld";
    assert s[0] == 'H' && s[1..] == "elloWorld";
    assert SnakeCase(s) == [ToLower('H')] + SnakeTail("elloWorld");
  }

  lemma {:induction false} SnakeTailFacts(t: string)
    ensures |SnakeTail(t)| == |t| + InnerUpperCount(t)
    ensures forall k :: 0 <= k < |SnakeTail(t)| ==> !IsUpper(SnakeTail(t)[k])
  {
    if t != [] {
      SnakeTailFacts(t[1..]);
      var r := SnakeTail(t);
      assert r == Piece(t[0]) + SnakeTail(t[1..]);
    }
  }

  /**
   * The output has no upper-case letter; its length is the input's plus one
   * underscore per upper-case letter after the first character; and the
   * first character is the input's first character in lower case.
   */
  lemma SnakeCaseShape(s: string)
    ensures |SnakeCase(s)| == |s| + (if s == [] then 0 else InnerUpperCount(s[1..]))
    ensures forall k :: 0 <= k < |SnakeCase(s)| ==> !IsUpper(SnakeCase(s)[k])
    ensures s != [] ==> SnakeCase(s)[0] == ToLower(s[0])
  {
    if s != [] {
      SnakeTailFacts(s[1..]);
      var r := SnakeCase(s);
      assert r == [ToLower(s[0])] + SnakeTail(s[1..]);
      assert forall k :: 1 <= k < |r| ==> r[k] == SnakeTail(s[1..])[k - 1];
    }
  }

  /** A string without upper-case letters is its own snake_case form. */
  lemma {:induction false} SnakeCaseOfLower(t: string)
    requires forall k :: 0 <= k < |t| ==> !IsUpper(t[k])
    ensures SnakeTail(t) == t
    ensures SnakeCase(t) == t
  {
    if t != [] {
      SnakeCaseOfLower(t[1..]);
      assert SnakeTail(t) == [t[0]] + SnakeTail(t[1..]);
    }
  }

  /** Converting twice is converting once. */
  lemma SnakeCaseIdempotent(s: string)
    ensures SnakeCase(SnakeCase(s)) == SnakeCase(s)
  {
    SnakeCaseShape(s);
    SnakeCaseOfLower(SnakeCase(s));
  }

  // ---------------------------------------------------------------------
  // serde's PascalCase renaming and the round trip
  // ---------------------------------------------------------------------

  /** serde's PascalCase rule on a field name: drop each '_' and upper-case the character after it and the first one. */
  function PascalFrom(s: string, capitalize: bool): string
  {
    if s == [] then []
    else if s[0] == '_' then PascalFrom(s[1..], true)
    else if capitalize then [ToUpper(s[0])] + PascalFrom(s[1..], false)
    else [s[0]] + PascalFrom(s[1..], false)
  }

  function PascalCase(field: string): string
  {
    PascalFrom(field, true)
  }

  /** A Rust type name that the round trip covers: an upper-case letter, then ASCII letters and digits. */
  predicate PascalIdentifier(s: string)
  {
    |s| > 0 && IsUpper(s[0]) && forall k :: 0 < k < |s| ==> IsUpper(s[k]) || IsLower(s[k]) || IsDigit(s[k])
  }

  lemma {:induction false} PascalOfSnakeTail(t: string)
    requires forall k :: 0 <= k < |t| ==> IsUpper(t[k]) || IsLower(t[k]) || IsDigit(t[k])
    ensures PascalFrom(SnakeTail(t), false) == t
  {
    if t != [] {
      PascalOfSnakeTail(t[1..]);
      var rest := SnakeTail(t[1..]);
      if IsUpper(t[0]) {
        var w := ['_', ToLower(t[0])] + rest;
        assert SnakeTail(t) == w;
        assert w[1..] == [ToLower(t[0])] + rest;
        assert ([ToLower(t[0])] + rest)[1..] == rest;
      } else {
        var w := [t[0]] + rest;
        assert SnakeTail(t) == w;
        assert w[1..] == rest;
      }
    }
  }

  /**
   * serde's PascalCase undoes `to_snake_case` on Rust type names: the field
   * named `to_snake_case(T)` is read from and written to the key `T`.
   */
  lemma PascalCaseInvertsSnakeCase(s: string)
    requires PascalIdentifier(s)
    ensures PascalCase(SnakeCase(s)) == s
  {
    var t := s[1..];
    assert forall k :: 0 <= k < |t| ==> t[k] == s[k + 1];
    PascalOfSnakeTail(t);
    var w := [ToLower(s[0])] + SnakeTail(t);
    assert w[1..] == SnakeTail(t);
    assert s == [s[0]] + t;
  }
}
