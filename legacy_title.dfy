/** The one-time title migration of `async_setup_entry`: a config entry that
    was named after the hub's MAC address, "Hubitat (xx:xx:xx:xx:xx:xx)", is
    renamed after the hub's id. The source tests the title with the regular
    expression `Hubitat \(\w{2}(:\w{2}){5}\)` under `re.match`, which anchors
    at the start only. Here that expression is a sequence of fixed-width
    tokens (`LegacyPattern`) run by a prefix matcher (`MatchPrefix`), and the
    same shape is stated a second time by position (`IsLegacyTitle`); the
    two are proved to agree. */
module LegacyTitle {

  /** One position of a fixed-width regular expression: a literal character or `\w`. */
  datatype Token = Lit(c: char) | Word

  /** `\w`, restricted to ASCII: a letter, a digit or the underscore. */
  predicate IsWordChar(c: char) {
    ('a' <= c <= 'z') || ('A' <= c <= 'Z') || ('0' <= c <= '9') || c == '_'
  }

  predicate Accepts(t: Token, c: char) {
    match t
    case Lit(d) => c == d
    case Word => IsWordChar(c)
  }

  /** `re.match` for a fixed-width pattern: the pattern must match a prefix of
      `s`; whatever follows that prefix is ignored. */
  predicate MatchPrefix(p: seq<Token>, s: string)
    decreases p
    ensures MatchPrefix(p, s) ==> |p| <= |s|
  {
    p == [] || (s != [] && Accepts(p[0], s[0]) && MatchPrefix(p[1..], s[1..]))
  }

  /** The tokens matching the characters of `w` literally. */
  function Literal(w: string): seq<Token> {
    if w == [] then [] else [Lit(w[0])] + Literal(w[1..])
  }

  /** `g{n}`: the group `g` written `n` times in a row. */
  function Repeat(g: seq<Token>, n: nat): (r: seq<Token>)
    ensures |r| == n * |g|
  {
    if n == 0 then [] else g + Repeat(g, n - 1)
  }

  /** `\w{2}` */
  const Pair: seq<Token> := Repeat([Word], 2)

  /** `:\w{2}` */
  const Group: seq<Token> := [Lit(':')] + Pair

  /** `Hubitat \(\w{2}(:\w{2}){5}\)` */
  const LegacyPattern: seq<Token> :=
    Literal("Hubitat (") + (Pair + (Repeat(Group, 5) + Literal(")")))

  /** The `k`-th `:\w\w` group of `rest`, counting from 0. */
  predicate IsMacGroup(rest: string, k: int) {
    0 <= k && 3 * k + 3 <= |rest|
    && rest[3 * k] == ':' && IsWordChar(rest[3 * k + 1]) && IsWordChar(rest[3 * k + 2])
  }

  /** Positional statement of the legacy title: "Hubitat (" at the start, two
      word characters at 9 and 10, five `:\w\w` groups from 11 to 25, ")" at
      26, and anything at all after that. */
  predicate IsLegacyTitle(t: string) {
    |t| >= 27
    && t[..9] == "Hubitat ("
    && IsWordChar(t[9]) && IsWordChar(t[10])
    && (forall k :: 0 <= k < 5 ==> IsMacGroup(t[11..], k))
    && t[26] == ')'
  }

  /** The title the entry bears once setup has succeeded: a legacy title is
      replaced by one naming the hub's id, any other title is kept. */
  function Retitled(title: string, hubId: string): string {
    if IsLegacyTitle(title) then "Hubitat (" + hubId + ")" else title
  }

  // ---------------------------------------------------------------------
  // The matcher on concatenated patterns

  /** Matching `p + q` is matching `p` and then `q` on what `p` leaves. */
  lemma {:induction false} MatchConcat(p: seq<Token>, q: seq<Token>, s: string)
    ensures MatchPrefix(p + q, s) <==> |p| <= |s| && MatchPrefix(p, s) && MatchPrefix(q, s[|p|..])
  {
    if p == [] {
      assert p + q == q;
    } else {
      assert (p + q)[0] == p[0];
      assert (p + q)[1..] == p[1..] + q;
      if s != [] {
        MatchConcat(p[1..], q, s[1..]);
        if |p| <= |s| {
          assert s[1..][|p| - 1..] == s[|p|..];
        }
      }
    }
  }

  /** Text after the matched prefix never matters. */
  lemma {:induction false} MatchIgnoresSuffix(p: seq<Token>, s: string, suffix: string)
    requires MatchPrefix(p, s)
    ensures MatchPrefix(p, s + suffix)
  {
    if p != [] {
      assert (s + suffix)[0] == s[0];
      assert (s + suffix)[1..] == s[1..] + suffix;
      MatchIgnoresSuffix(p[1..], s[1..], suffix);
    }
  }

  lemma {:induction false} MatchLiteral(w: string, s: string)
    ensures MatchPrefix(Literal(w), s) <==> |w| <= |s| && s[..|w|] == w
  {
    if w != [] {
      if s != [] {
        MatchLiteral(w[1..], s[1..]);
        if |w| <= |s| {
          assert s[..|w|] == [s[0]] + s[1..][..|w| - 1];
          assert w == [w[0]] + w[1..];
        }
      }
    }
  }

  lemma MatchPair(s: string)
    ensures MatchPrefix(Pair, s) <==> |s| >= 2 && IsWordChar(s[0]) && IsWordChar(s[1])
  {
  }

  lemma MatchGroup(s: string)
    ensures MatchPrefix(Group, s) <==> IsMacGroup(s, 0)
  {
  }

  /** Dropping the first group renumbers the others. */
  lemma MacGroupShift(s: string, k: int)
    requires |s| >= 3 && 0 <= k
    ensures IsMacGroup(s[3..], k) <==> IsMacGroup(s, k + 1)
  {
  }

  /** `(:\w{2}){n}` matches exactly when the first `n` groups are present. */
  lemma {:induction false} MatchGroups(n: nat, s: string)
    ensures MatchPrefix(Repeat(Group, n), s) <==> forall k :: 0 <= k < n ==> IsMacGroup(s, k)
  {
    if n > 0 {
      var rest := Repeat(Group, n - 1);
      assert Repeat(Group, n) == Group + rest;
      MatchConcat(Group, rest, s);
      MatchGroup(s);
      if |s| >= 3 {
        MatchGroups(n - 1, s[3..]);
        forall k | 0 <= k < n - 1
          ensures IsMacGroup(s[3..], k) <==> IsMacGroup(s, k + 1)
        {
          MacGroupShift(s, k);
        }
        if MatchPrefix(Repeat(Group, n), s) {
          forall k | 0 <= k < n
            ensures IsMacGroup(s, k)
          {
            if k > 0 {
              assert IsMacGroup(s[3..], k - 1);
            }
          }
        }
      } else {
        assert !IsMacGroup(s, 0);
      }
    }
  }

  /** The regular expression and the positional statement agree on every title. */
  lemma LegacyPatternMatchesIff(t: string)
    ensures MatchPrefix(LegacyPattern, t) <==> IsLegacyTitle(t)
  {
    var prefix := Literal("Hubitat (");
    var groups := Repeat(Group, 5);
    var close := Literal(")");
    assert |prefix| == 9 by { LiteralLength("Hubitat ("); }
    assert |Pair| == 2;
    assert |groups| == 15;
    MatchConcat(prefix, Pair + (groups + close), t);
    MatchLiteral("Hubitat (", t);
    if |t| >= 9 {
      var t9 := t[9..];
      MatchConcat(Pair, groups + close, t9);
      MatchPair(t9);
      if |t9| >= 2 {
        var t11 := t9[2..];
        assert t11 == t[11..];
        MatchConcat(groups, close, t11);
        MatchGroups(5, t11);
        if |t11| >= 15 {
          assert t11[15..] == t[26..];
          MatchLiteral(")", t[26..]);
          if |t| >= 27 {
            assert t[26..][..1] == [t[26]];
          }
        } else {
          assert !IsMacGroup(t11, 4);
        }
      }
    }
  }

  lemma {:induction false} LiteralLength(w: string)
    ensures |Literal(w)| == |w|
  {
    if w != [] {
      LiteralLength(w[1..]);
    }
  }

  // ---------------------------------------------------------------------
  // Properties of the migration

  /** `re.match` is anchored at the start only: a suffix keeps a legacy title legacy. */
  lemma LegacyTitleIgnoresSuffix(t: string, suffix: string)
    requires IsLegacyTitle(t)
    ensures IsLegacyTitle(t + suffix)
  {
    LegacyPatternMatchesIff(t);
    MatchIgnoresSuffix(LegacyPattern, t, suffix);
    LegacyPatternMatchesIff(t + suffix);
  }

  /** A title the migration wrote is not migrated again unless the hub id
      itself looks like a MAC address: an id without ':' is final. */
  lemma RetitledIsFinal(hubId: string)
    requires ':' !in hubId
    ensures !IsLegacyTitle("Hubitat (" + hubId + ")")
  {
    var t := "Hubitat (" + hubId + ")";
    if |hubId| >= 3 {
      assert t[11..][0] == hubId[2];
      assert hubId[2] in hubId;
      assert !IsMacGroup(t[11..], 0);
    }
  }

  /** Running the migration twice with the same hub id changes nothing more. */
  lemma RetitledIdempotent(title: string, hubId: string)
    ensures Retitled(Retitled(title, hubId), hubId) == Retitled(title, hubId)
  {
  }

  /** The groups of a title, read at their absolute positions. */
  lemma MacGroupOfTitle(t: string, k: int)
    requires |t| >= 11
    ensures IsMacGroup(t[11..], k) <==>
      0 <= k && 3 * k + 14 <= |t|
      && t[11 + 3 * k] == ':' && IsWordChar(t[12 + 3 * k]) && IsWordChar(t[13 + 3 * k])
  {
  }

  /** The shapes the migration does and does not touch. */
  lemma MacTitleIsLegacy()
    ensures IsLegacyTitle("Hubitat (AA:BB:CC:DD:EE:FF)")
  {
    var t := "Hubitat (AA:BB:CC:DD:EE:FF)";
    assert t[..9] == "Hubitat (";
    forall k | 0 <= k < 5
      ensures IsMacGroup(t[11..], k)
    {
      MacGroupOfTitle(t, k);
    }
  }

  lemma MacTitleIsRetitled()
    ensures Retitled("Hubitat (AA:BB:CC:DD:EE:FF)", "3") == "Hubitat (3)"
  {
    MacTitleIsLegacy();
  }

  /** `\w` accepts letters that are no hex digit. */
  lemma WordTitleIsLegacy()
    ensures IsLegacyTitle("Hubitat (GG:hh:_0:99:zz:Q_)")
  {
    var t := "Hubitat (GG:hh:_0:99:zz:Q_)";
    assert t[..9] == "Hubitat (";
    forall k | 0 <= k < 5
      ensures IsMacGroup(t[11..], k)
    {
      MacGroupOfTitle(t, k);
    }
  }

  /** Text after the closing parenthesis is allowed. */
  lemma WordTitleWithSuffixIsLegacy()
    ensures IsLegacyTitle("Hubitat (GG:hh:_0:99:zz:Q_) old")
  {
    var t := "Hubitat (GG:hh:_0:99:zz:Q_)";
    WordTitleIsLegacy();
    LegacyTitleIgnoresSuffix(t, " old");
    assert t + " old" == "Hubitat (GG:hh:_0:99:zz:Q_) old";
  }

  lemma OtherTitlesAreNotLegacy()
    ensures !IsLegacyTitle("My Hub")
    ensures Retitled("My Hub", "3") == "My Hub"
    ensures !IsLegacyTitle("Hubitat (AA-BB-CC-DD-EE-FF)")
    ensures !IsLegacyTitle("Hubitat (AA:BB:CC:DD:EE)")
  {
    assert !IsMacGroup("Hubitat (AA-BB-CC-DD-EE-FF)"[11..], 0);
  }

  /** The match is anchored at the start of the title: a title whose first
      character is not 'H' never matches, whatever follows. */
  lemma LeadingTextIsNotLegacy(c: char, t: string)
    requires c != 'H'
    ensures !IsLegacyTitle([c] + t)
  {
    var title := [c] + t;
    if |title| >= 9 {
      assert title[..9][0] == c;
      assert "Hubitat ("[0] == 'H';
    }
  }
}
