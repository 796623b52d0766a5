/**
 Tag normalisation of the song form (`frontend/src/pages/AddSong.tsx`, the `tags` member
 of `songData`): split the input at `,`, trim every piece, drop the empty ones, join the
 rest with `,`, and send `null` when nothing is left.
 */
module Tags {
  import opened Wrappers
  import opened Strings

  const Comma := ','

  /** A token: non-empty and trimmed. */
  predicate IsToken(t: string) {
    |t| > 0 && IsTrimmed(t)
  }

  /** Trimmed pieces, the empty ones dropped, in order. */
  function CleanTokens(parts: seq<string>): (r: seq<string>)
    ensures |r| <= |parts|
    ensures forall i :: 0 <= i < |r| ==> IsToken(r[i])
    decreases |parts|
  {
    if |parts| == 0 then []
    else
      var t := Trim(parts[0]);
      var rest := CleanTokens(parts[1..]);
      if |t| == 0 then rest
      else
        ConsTokens(t, rest);
        [t] + rest
  }

  lemma ConsTokens(t: string, rest: seq<string>)
    requires IsToken(t) && forall i :: 0 <= i < |rest| ==> IsToken(rest[i])
    ensures forall i :: 0 <= i < |[t] + rest| ==> IsToken(([t] + rest)[i])
  {
  }

  /** The tokens of a tag input: non-empty, trimmed, and without a comma. */
  function Tokens(tags: string): (ts: seq<string>)
    ensures forall i :: 0 <= i < |ts| ==> IsToken(ts[i]) && Comma !in ts[i]
  {
    var parts := Split(tags, [Comma]);
    forall i | 0 <= i < |parts| ensures Comma !in parts[i] {
      FreeHasNoChar(parts[i], Comma);
    }
    CleanKeepsOut(parts, Comma);
    CleanTokens(parts)
  }

  /** The `tags` member sent: `null` when no token is left, else the tokens joined with
      `,`. */
  function NormalizeTags(tags: string): (r: Option<string>)
    ensures r.None? <==> |Tokens(tags)| == 0
    ensures r.Some? ==> r.value != ""
  {
    var ts := Tokens(tags);
    if |ts| == 0 then None
    else
      assert |Join(ts, [Comma])| >= |ts[0]| by { JoinStartsWithFirst(ts, [Comma]); }
      Some(Join(ts, [Comma]))
  }

  /** The text sent splits back at `,` into exactly the typed tokens. */
  lemma NormalizeSplits(tags: string)
    requires NormalizeTags(tags).Some?
    ensures Split(NormalizeTags(tags).value, [Comma]) == Tokens(tags)
  {
    SplitJoin(Tokens(tags), Comma);
  }

  /** A string free of `[c]` does not contain `c`. */
  lemma FreeHasNoChar(s: string, c: char)
    requires Free(s, [c])
    ensures c !in s
  {
    forall k | 0 <= k < |s| ensures s[k] != c {
      assert !OccursAt(s, [c], k);
      assert s[k..k + 1] == [s[k]];
    }
  }

  /** Trimming keeps only characters of its input. */
  lemma TrimKeepsOut(s: string, c: char)
    requires c !in s
    ensures c !in Trim(s)
  {
    var a := TrimStart(s);
    TrimStartFacts(s);
    assert forall i :: 0 <= i < |a| ==> a[i] == s[|s| - |a| + i];
    var b := TrimEnd(a);
    TrimEndFacts(a);
    assert forall i :: 0 <= i < |b| ==> b[i] == a[i];
  }

  /** No string of `ts` contains `c`. */
  predicate Excludes(ts: seq<string>, c: char) {
    forall i :: 0 <= i < |ts| ==> c !in ts[i]
  }

  /** Cleaning keeps a character out of the tokens that the pieces kept out. */
  lemma {:induction false} CleanKeepsOut(parts: seq<string>, c: char)
    requires Excludes(parts, c)
    ensures Excludes(CleanTokens(parts), c)
    decreases |parts|
  {
    if |parts| > 0 {
      var t := Trim(parts[0]);
      var rest := CleanTokens(parts[1..]);
      assert Excludes(parts[1..], c) by {
        forall i | 0 <= i < |parts| - 1 ensures c !in parts[1..][i] {
          assert parts[1..][i] == parts[i + 1];
        }
      }
      CleanKeepsOut(parts[1..], c);
      if |t| > 0 {
        assert c !in parts[0];
        TrimKeepsOut(parts[0], c);
        assert CleanTokens(parts) == [t] + rest;
        ExcludesCons(t, rest, c);
      }
    }
  }

  lemma ExcludesCons(t: string, rest: seq<string>, c: char)
    requires c !in t && Excludes(rest, c)
    ensures Excludes([t] + rest, c)
  {
    forall i | 0 <= i < |rest| + 1 ensures c !in ([t] + rest)[i] {
      if i > 0 {
        assert ([t] + rest)[i] == rest[i - 1];
      }
    }
  }

  /** A join starts with its first piece. */
  lemma JoinStartsWithFirst(ts: seq<string>, sep: string)
    requires |ts| > 0
    ensures StartsWith(Join(ts, sep), ts[0])
  {
    if |ts| > 1 {
      assert Join(ts, sep) == ts[0] + (sep + Join(ts[1..], sep));
    }
  }

  /** Tokens that are already clean come out of cleaning unchanged. */
  lemma {:induction false} CleanOfClean(ts: seq<string>)
    requires forall i :: 0 <= i < |ts| ==> IsToken(ts[i])
    ensures CleanTokens(ts) == ts
    decreases |ts|
  {
    if |ts| > 0 {
      assert IsToken(ts[0]);
      TrimOfTrimmed(ts[0]);
      assert forall i :: 0 <= i < |ts[1..]| ==> IsToken(ts[1..][i]) by {
        forall i | 0 <= i < |ts[1..]| ensures IsToken(ts[1..][i]) {
          assert ts[1..][i] == ts[i + 1];
        }
      }
      CleanOfClean(ts[1..]);
      assert CleanTokens(ts) == [ts[0]] + CleanTokens(ts[1..]);
      assert ts == [ts[0]] + ts[1..];
    }
  }

  /** Normalising what normalisation sends changes nothing. */
  lemma NormalizeIdempotent(tags: string)
    requires NormalizeTags(tags).Some?
    ensures NormalizeTags(NormalizeTags(tags).value) == NormalizeTags(tags)
  {
    var ts := Tokens(tags);
    var sent := NormalizeTags(tags).value;
    NormalizeSplits(tags);
    CleanOfClean(ts);
    assert Tokens(sent) == ts;
  }

  /** Only commas and whitespace. */
  predicate OnlyBlanks(s: string) {
    forall i :: 0 <= i < |s| ==> IsWhitespace(s[i]) || s[i] == Comma
  }

  /** An input of commas and whitespace alone is sent as `null`, and only such an input. */
  lemma BlankTagsNull(tags: string)
    ensures NormalizeTags(tags).None? <==> OnlyBlanks(tags)
  {
    var parts := Split(tags, [Comma]);
    JoinSplit(tags, [Comma]);
    if OnlyBlanks(tags) {
      forall i | 0 <= i < |parts| ensures AllWhitespace(parts[i]) {
        forall j | 0 <= j < |parts[i]| ensures IsWhitespace(parts[i][j]) {
          PieceInJoin(parts, Comma, i, j);
          FreeHasNoChar(parts[i], Comma);
        }
      }
      AllBlankClean(parts);
    } else {
      var k :| 0 <= k < |tags| && !IsWhitespace(tags[k]) && tags[k] != Comma;
      var i := JoinPieceOf(parts, Comma, k);
      assert !AllWhitespace(parts[i]);
      SomeTokenKept(parts, i);
    }
  }

  /** A character of a piece occurs in the join. */
  lemma {:induction false} PieceInJoin(parts: seq<string>, c: char, i: nat, j: nat)
    requires i < |parts| && j < |parts[i]|
    ensures exists k :: 0 <= k < |Join(parts, [c])| && Join(parts, [c])[k] == parts[i][j]
    decreases |parts|
  {
    var s := Join(parts, [c]);
    if |parts| == 1 {
      assert s[j] == parts[i][j];
    } else if i == 0 {
      assert s == parts[0] + [c] + Join(parts[1..], [c]);
      assert s[j] == parts[0][j];
    } else {
      var rest := Join(parts[1..], [c]);
      assert s == parts[0] + [c] + rest;
      PieceInJoin(parts[1..], c, i - 1, j);
      var k :| 0 <= k < |rest| && rest[k] == parts[1..][i - 1][j];
      assert s[|parts[0]| + 1 + k] == rest[k];
    }
  }

  /** A character of a join other than the separator lies in some piece; the index of
      that piece is returned. */
  lemma {:induction false} JoinPieceOf(parts: seq<string>, c: char, k: nat) returns (i: nat)
    requires k < |Join(parts, [c])| && Join(parts, [c])[k] != c
    ensures i < |parts| && Join(parts, [c])[k] in parts[i]
    decreases |parts|
  {
    var s := Join(parts, [c]);
    if |parts| == 1 {
      i := 0;
    } else {
      var rest := Join(parts[1..], [c]);
      assert s == parts[0] + [c] + rest;
      if k < |parts[0]| {
        assert s[k] == parts[0][k];
        i := 0;
      } else {
        assert k > |parts[0]|;
        assert s[k] == rest[k - |parts[0]| - 1];
        var i' := JoinPieceOf(parts[1..], c, k - |parts[0]| - 1);
        i := i' + 1;
      }
    }
  }

  /** Pieces that are all whitespace leave no token. */
  lemma {:induction false} AllBlankClean(parts: seq<string>)
    requires forall i :: 0 <= i < |parts| ==> AllWhitespace(parts[i])
    ensures CleanTokens(parts) == []
    decreases |parts|
  {
    if |parts| > 0 {
      AllBlankClean(parts[1..]);
    }
  }

  /** A piece with a character other than whitespace leaves a token. */
  lemma {:induction false} SomeTokenKept(parts: seq<string>, i: nat)
    requires i < |parts| && !AllWhitespace(parts[i])
    ensures |CleanTokens(parts)| > 0
    decreases |parts|
  {
    var t := Trim(parts[0]);
    if t != "" {
      assert CleanTokens(parts) == [t] + CleanTokens(parts[1..]);
    } else {
      assert i != 0;
      assert parts[1..][i - 1] == parts[i];
      SomeTokenKept(parts[1..], i - 1);
      assert CleanTokens(parts) == CleanTokens(parts[1..]);
    }
  }

  /** `tags.join(', ')` of the edit form: tokens each preceded by a space after the first. */
  function Padded(ts: seq<string>): (ps: seq<string>)
    ensures |ps| == |ts|
    ensures forall i :: 0 <= i < |ts| ==> ps[i] == " " + ts[i]
  {
    seq(|ts|, i requires 0 <= i < |ts| => " " + ts[i])
  }

  /** Joining with `", "` is joining with `,` after padding every token but the first. */
  lemma {:induction false} JoinCommaSpace(ts: seq<string>)
    requires |ts| > 0
    ensures Join(ts, ", ") == Join([ts[0]] + Padded(ts[1..]), [Comma])
    decreases |ts|
  {
    if |ts| > 1 {
      var tail := [ts[1]] + Padded(ts[2..]);
      JoinCommaSpace(ts[1..]);
      assert ts[1..][0] == ts[1] && ts[1..][1..] == ts[2..];
      assert Padded(ts[1..]) == [" " + ts[1]] + Padded(ts[2..]);
      JoinSpaceFirst(ts[1], Padded(ts[2..]));
      assert ([ts[0]] + Padded(ts[1..]))[1..] == Padded(ts[1..]);
      assert Join(ts, ", ") == ts[0] + ", " + Join(ts[1..], ", ");
    } else {
      assert [ts[0]] + Padded(ts[1..]) == [ts[0]];
    }
  }

  /** A space in front of the first piece is a space in front of the join. */
  lemma JoinSpaceFirst(x: string, rest: seq<string>)
    ensures Join([" " + x] + rest, [Comma]) == " " + Join([x] + rest, [Comma])
  {
    if |rest| > 0 {
      assert ([" " + x] + rest)[1..] == rest;
      assert ([x] + rest)[1..] == rest;
    }
  }

  /** Padded tokens are cleaned back to the tokens. */
  lemma {:induction false} CleanPadded(ts: seq<string>)
    requires forall i :: 0 <= i < |ts| ==> IsToken(ts[i])
    ensures CleanTokens(Padded(ts)) == ts
    decreases |ts|
  {
    if |ts| > 0 {
      var ps := Padded(ts);
      assert ps[0] == " " + ts[0];
      TrimPadded(" ", ts[0]);
      assert ps[1..] == Padded(ts[1..]);
      CleanPadded(ts[1..]);
      assert CleanTokens(ps) == [ts[0]] + CleanTokens(ps[1..]);
      assert ts == [ts[0]] + ts[1..];
    }
  }

  /** The edit form shows stored tokens joined with `", "`; submitting that text sends
      the same tokens joined with `,`. */
  lemma EditedTagsRoundTrip(ts: seq<string>)
    requires |ts| > 0
    requires forall i :: 0 <= i < |ts| ==> IsToken(ts[i]) && Comma !in ts[i]
    ensures NormalizeTags(Join(ts, ", ")) == Some(Join(ts, [Comma]))
  {
    EditedTokens(ts);
  }

  /** The tokens of the edit form's tag text are the stored tokens. */
  lemma EditedTokens(ts: seq<string>)
    requires |ts| > 0
    requires forall i :: 0 <= i < |ts| ==> IsToken(ts[i]) && Comma !in ts[i]
    ensures Tokens(Join(ts, ", ")) == ts
  {
    var ps := [ts[0]] + Padded(ts[1..]);
    JoinCommaSpace(ts);
    PaddedExcludes(ts);
    SplitJoin(ps, Comma);
    assert Split(Join(ts, ", "), [Comma]) == ps;
    CleanFirstPadded(ts);
  }

  /** Padding adds no comma. */
  lemma PaddedExcludes(ts: seq<string>)
    requires |ts| > 0
    requires forall i :: 0 <= i < |ts| ==> Comma !in ts[i]
    ensures Excludes([ts[0]] + Padded(ts[1..]), Comma)
  {
    var ps := [ts[0]] + Padded(ts[1..]);
    forall i | 0 <= i < |ps| ensures Comma !in ps[i] {
      if i > 0 {
        assert ps[i] == " " + ts[i];
      }
    }
  }

  /** Cleaning the first token and the padded rest gives back the tokens. */
  lemma CleanFirstPadded(ts: seq<string>)
    requires |ts| > 0
    requires forall i :: 0 <= i < |ts| ==> IsToken(ts[i])
    ensures CleanTokens([ts[0]] + Padded(ts[1..])) == ts
  {
    var ps := [ts[0]] + Padded(ts[1..]);
    TrimOfTrimmed(ts[0]);
    CleanPadded(ts[1..]);
    assert ps[1..] == Padded(ts[1..]);
    assert CleanTokens(ps) == [ts[0]] + CleanTokens(ps[1..]);
    assert ts == [ts[0]] + ts[1..];
  }
}
