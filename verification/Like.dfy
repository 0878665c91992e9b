/** SQL LIKE with backslash as escape (section 8.5 of ISO/IEC 9075-2), and the prefix pattern built for it. */
module Like {
  import opened Base

  datatype Token = Literal(c: char) | AnyOne | AnyMany

  /** The tokens of a pattern; None when it ends in a lone escape character, which SQL rejects. */
  function Tokens(pattern: string): Option<seq<Token>> {
    if pattern == "" then Some([])
    else if pattern[0] == '\\' then
      if |pattern| == 1 then None
      else Prepend(Literal(pattern[1]), Tokens(pattern[2..]))
    else Prepend(if pattern[0] == '%' then AnyMany else if pattern[0] == '_' then AnyOne else Literal(pattern[0]),
                 Tokens(pattern[1..]))
  }

  function Prepend(t: Token, rest: Option<seq<Token>>): Option<seq<Token>> {
    if rest.None? then None else Some([t] + rest.value)
  }

  predicate Matches(s: string, ts: seq<Token>)
    decreases |s| + |ts|
  {
    if ts == [] then s == ""
    else match ts[0]
      case Literal(c) => s != "" && s[0] == c && Matches(s[1..], ts[1..])
      case AnyOne => s != "" && Matches(s[1..], ts[1..])
      case AnyMany => Matches(s, ts[1..]) || (s != "" && Matches(s[1..], ts))
  }

  /** `s LIKE pattern ESCAPE '\'`. */
  predicate IsLike(s: string, pattern: string) {
    Tokens(pattern).Some? && Matches(s, Tokens(pattern).value)
  }

  /** `strings.NewReplacer` over `\`, `%` and `_`. */
  function Escape(prefix: string): string {
    if prefix == "" then ""
    else (if prefix[0] in "\\%_" then "\\" + [prefix[0]] else [prefix[0]]) + Escape(prefix[1..])
  }

  function LikePrefix(prefix: string): string {
    Escape(prefix) + "%"
  }

  function Literals(s: string): seq<Token> {
    seq(|s|, i requires 0 <= i < |s| => Literal(s[i]))
  }

  lemma {:induction false} EscapedPatternIsLiteral(prefix: string)
    ensures Tokens(LikePrefix(prefix)) == Some(Literals(prefix) + [AnyMany])
  {
    if prefix == "" {
      assert LikePrefix("") == "%" && Tokens("%"[1..]) == Some([]);
      assert Literals("") + [AnyMany] == [AnyMany] == [AnyMany] + [];
    } else {
      EscapedPatternIsLiteral(prefix[1..]);
      FirstIsEscaped(prefix[0], prefix[1..], prefix);
      assert Literals(prefix) + [AnyMany] == [Literal(prefix[0])] + (Literals(prefix[1..]) + [AnyMany]);
    }
  }

  lemma {:induction false} FirstIsEscaped(c: char, rest: string, prefix: string)
    requires prefix == [c] + rest && Tokens(LikePrefix(rest)).Some?
    ensures Tokens(LikePrefix(prefix)) == Some([Literal(c)] + Tokens(LikePrefix(rest)).value)
  {
    assert prefix[1..] == rest;
    assert c in "\\%_" <==> c == '\\' || c == '%' || c == '_';
    if c in "\\%_" {
      assert LikePrefix(prefix) == ['\\', c] + LikePrefix(rest);
      assert LikePrefix(prefix)[2..] == LikePrefix(rest);
    } else {
      assert LikePrefix(prefix) == [c] + LikePrefix(rest);
      assert LikePrefix(prefix)[1..] == LikePrefix(rest);
    }
  }

  lemma {:induction false} AnyManyMatchesAll(s: string)
    ensures Matches(s, [AnyMany])
  {
    if s != "" {
      AnyManyMatchesAll(s[1..]);
    }
  }

  lemma {:induction false} LiteralsMatchPrefix(s: string, prefix: string)
    ensures Matches(s, Literals(prefix) + [AnyMany]) <==> prefix <= s
    decreases |prefix|
  {
    var ts := Literals(prefix) + [AnyMany];
    if prefix == "" {
      AnyManyMatchesAll(s);
      assert ts == [AnyMany];
    } else {
      assert ts[1..] == Literals(prefix[1..]) + [AnyMany];
      if s != "" {
        LiteralsMatchPrefix(s[1..], prefix[1..]);
        assert prefix <= s <==> prefix[0] == s[0] && prefix[1..] <= s[1..];
      }
    }
  }

  /** For every prefix, special characters included, the pattern matches exactly the strings that start with it. */
  lemma LikePrefixMatchesPrefix(s: string, prefix: string)
    ensures IsLike(s, LikePrefix(prefix)) <==> prefix <= s
  {
    EscapedPatternIsLiteral(prefix);
    LiteralsMatchPrefix(s, prefix);
  }
}
