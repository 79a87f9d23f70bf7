/**
 * Composite identifiers `prefix-localId` and the extraction of a data
 * source's local ids from broker ids (`_synthesize_query_identifiers`).
 * The few Python string operations the extraction relies on (`split`,
 * `replace` with a count of one and the search for the first occurrence
 * inside it, `startswith`) are modelled here over `seq<char>`.
 */
module Identifiers {
  import opened Wrappers
  import opened Sequences

  /** The separator between a data source's id prefix and its local id. */
  const Dash: char := '-'

  /** The separator of a comma-joined list of ids. */
  const Comma: char := ','

  /** The broker id of local id `local` under data source prefix `prefix`. */
  function Compose(prefix: string, local: string): string
  {
    prefix + [Dash] + local
  }

  /** `sep.join(xs)` */
  function Join(xs: seq<string>, sep: char): string
  {
    if |xs| == 0 then ""
    else if |xs| == 1 then xs[0]
    else xs[0] + [sep] + Join(xs[1..], sep)
  }

  /**
   * `s.split(sep)`: the maximal runs of `s` between occurrences of `sep`.
   * There is always at least one piece (`"".split(",") == [""]`).
   */
  function Split(s: string, sep: char): (r: seq<string>)
    ensures |r| >= 1
    ensures forall i :: 0 <= i < |r| ==> sep !in r[i]
  {
    if s == [] then [""]
    else
      var rest := Split(s[1..], sep);
      if s[0] == sep then [""] + rest
      else [[s[0]] + rest[0]] + rest[1..]
  }

  /** Splitting and joining again gives back the string. */
  lemma {:induction false} SplitJoin(s: string, sep: char)
    ensures Join(Split(s, sep), sep) == s
  {
    if s != [] {
      var rest := Split(s[1..], sep);
      SplitJoin(s[1..], sep);
      if s[0] == sep {
        assert Split(s, sep) == [""] + rest;
        assert ([""] + rest)[1..] == rest;
      } else {
        var r := Split(s, sep);
        assert r == [[s[0]] + rest[0]] + rest[1..];
        if |rest| > 1 {
          assert r[1..] == rest[1..];
          assert Join(rest, sep) == rest[0] + [sep] + Join(rest[1..], sep);
        }
      }
    }
  }

  /** A piece free of the separator, followed by the separator, splits off as one piece. */
  lemma {:induction false} SplitAfterPiece(w: string, t: string, sep: char)
    requires sep !in w
    ensures Split(w + [sep] + t, sep) == [w] + Split(t, sep)
  {
    if w != [] {
      assert (w + [sep] + t)[1..] == w[1..] + [sep] + t;
      SplitAfterPiece(w[1..], t, sep);
      assert [w[0]] + w[1..] == w;
      assert ([w[1..]] + Split(t, sep))[1..] == Split(t, sep);
    } else {
      assert w + [sep] + t == [sep] + t;
      assert ([sep] + t)[1..] == t;
    }
  }

  /** A string free of the separator splits into itself. */
  lemma {:induction false} SplitWhole(w: string, sep: char)
    requires sep !in w
    ensures Split(w, sep) == [w]
  {
    if w != [] {
      SplitWhole(w[1..], sep);
      assert [w[0]] + w[1..] == w;
    }
  }

  /** Joining separator-free pieces and splitting again gives back the pieces. */
  lemma {:induction false} JoinSplit(xs: seq<string>, sep: char)
    requires |xs| >= 1
    requires forall i :: 0 <= i < |xs| ==> sep !in xs[i]
    ensures Split(Join(xs, sep), sep) == xs
  {
    if |xs| == 1 {
      SplitWhole(xs[0], sep);
    } else {
      JoinSplit(xs[1..], sep);
      SplitAfterPiece(xs[0], Join(xs[1..], sep), sep);
      assert [xs[0]] + xs[1..] == xs;
    }
  }

  /** `pat` occurs in `s` at position `j`. */
  predicate OccursAt(s: string, pat: string, j: int)
  {
    0 <= j && j + |pat| <= |s| && s[j..j + |pat|] == pat
  }

  /** An occurrence one position into `s` is an occurrence in `s[1..]`. */
  lemma OccursShift(s: string, pat: string, j: int)
    requires s != [] && j > 0
    ensures OccursAt(s, pat, j) <==> OccursAt(s[1..], pat, j - 1)
  {
    if j + |pat| <= |s| {
      assert s[1..][j - 1..j - 1 + |pat|] == s[j..j + |pat|];
    }
  }

  /** The search inside `s.replace(pat, …, 1)`: the first position at which `pat` occurs in `s`. */
  function Find(s: string, pat: string): (r: Option<nat>)
    ensures r.Some? ==> OccursAt(s, pat, r.value)
    ensures r.Some? ==> forall j :: 0 <= j < r.value ==> !OccursAt(s, pat, j)
    ensures r.None? ==> forall j :: !OccursAt(s, pat, j)
    decreases |s|
  {
    if pat <= s then Some(0)
    else if s == [] then None
    else
      var rest := Find(s[1..], pat);
      assert forall j :: j > 0 ==> (OccursAt(s, pat, j) <==> OccursAt(s[1..], pat, j - 1)) by {
        forall j | j > 0 ensures OccursAt(s, pat, j) <==> OccursAt(s[1..], pat, j - 1) {
          OccursShift(s, pat, j);
        }
      }
      assert !OccursAt(s, pat, 0);
      match rest
      case None => None
      case Some(i) => Some(i + 1)
  }

  /** `s.replace(pat, repl, 1)`: the first occurrence of `pat` in `s` replaced by `repl`. */
  function ReplaceFirst(s: string, pat: string, repl: string): (r: string)
    ensures pat <= s ==> r == repl + s[|pat|..]
    ensures (forall j :: !OccursAt(s, pat, j)) ==> r == s
  {
    match Find(s, pat)
    case None => s
    case Some(i) => s[..i] + repl + s[i + |pat|..]
  }

  /** `s.split("-")[0]`: the text before the first dash, the longest dash-free prefix of `s`. */
  function FirstToken(s: string): (r: string)
    ensures r <= s && Dash !in r
    ensures |r| < |s| ==> s[|r|] == Dash
    ensures Dash in s <==> |r| < |s|
  {
    var pieces := Split(s, Dash);
    SplitJoin(s, Dash);
    if |pieces| > 1 then
      assert s == pieces[0] + [Dash] + Join(pieces[1..], Dash);
      pieces[0]
    else
      pieces[0]
  }

  /** The first token of a broker id composed with a dash-free prefix is that prefix. */
  lemma FirstTokenOfComposed(prefix: string, local: string)
    requires Dash !in prefix
    ensures FirstToken(Compose(prefix, local)) == prefix
  {
    var s := Compose(prefix, local);
    var t := FirstToken(s);
    assert s[|prefix|] == Dash;
    assert |t| == |prefix|;
    assert t == s[..|t|] && prefix == s[..|prefix|];
  }

  /**
   * `extract_id`: a non-empty id loses its first token and the dash after it
   * (the first occurrence of `<first token>-` is replaced by nothing), so
   * what is left is the text after the first dash; an id without a dash is
   * kept whole.
   */
  function ExtractId(id: string): (r: string)
    ensures Dash !in id ==> r == id
    ensures Dash in id ==> r == id[|FirstToken(id)| + 1..]
  {
    if id != "" then
      var t := FirstToken(id);
      assert Dash in id ==> t + [Dash] <= id by {
        if Dash in id {
          assert id[..|t| + 1] == t + [Dash];
        }
      }
      // Without a dash, the first token is all of `id`, so `<first token>-` is too long to occur.
      assert Dash !in id ==> forall j :: !OccursAt(id, t + [Dash], j);
      ReplaceFirst(id, t + [Dash], "")
    else id
  }

  /** Extraction undoes composition with a dash-free prefix, whatever dashes the local id holds. */
  lemma ExtractComposed(prefix: string, local: string)
    requires Dash !in prefix
    ensures ExtractId(Compose(prefix, local)) == local
  {
    var s := Compose(prefix, local);
    FirstTokenOfComposed(prefix, local);
    assert s[|prefix|] == Dash;
    assert s[|prefix| + 1..] == local;
  }

  /** Composition with a fixed prefix is injective. */
  lemma ComposeInjective(prefix: string)
    ensures forall a, b :: Compose(prefix, a) == Compose(prefix, b) ==> a == b
  {
    forall a, b | Compose(prefix, a) == Compose(prefix, b) ensures a == b {
      assert a == Compose(prefix, a)[|prefix| + 1..];
      assert b == Compose(prefix, b)[|prefix| + 1..];
    }
  }

  /** An id that starts with `prefix-`, for a dash-free prefix, is the composition of `prefix` with its extraction. */
  lemma TaggedIsComposed(prefix: string, id: string)
    requires Dash !in prefix
    requires prefix + [Dash] <= id
    ensures id == Compose(prefix, ExtractId(id))
  {
    var local := id[|prefix| + 1..];
    assert id == Compose(prefix, local);
    ExtractComposed(prefix, local);
  }

  /** With dash-free prefixes, a broker id under `other` starts with `prefix-` exactly when the prefixes agree. */
  lemma TagMatchesOnlyOwnPrefix(prefix: string, other: string, local: string)
    requires Dash !in prefix && Dash !in other
    ensures prefix + [Dash] <= Compose(other, local) <==> prefix == other
  {
    var s := Compose(other, local);
    if prefix + [Dash] <= s {
      assert s[|prefix|] == Dash && s[|other|] == Dash;
      assert |prefix| == |other|;
      assert prefix == s[..|prefix|] && other == s[..|other|];
    }
  }

  /** The ids handed to the extraction: a comma-joined string or a list. */
  datatype IdValues = Joined(text: string) | Listed(ids: seq<string>)

  /** The individual ids: a string is split on commas first. */
  function Entries(values: IdValues): seq<string>
  {
    match values
    case Joined(text) => Split(text, Comma)
    case Listed(ids) => ids
  }

  /**
   * The comprehension of `_synthesize_query_identifiers`: the extraction of
   * every id that starts with `prefix-`, in input order; other ids are dropped.
   */
  function ExtractMatching(ids: seq<string>, prefix: string): (r: seq<string>)
    ensures |r| <= |ids|
    ensures Dash !in prefix ==> forall y :: y in r ==> Compose(prefix, y) in ids
    ensures Dash !in prefix ==> forall y :: Compose(prefix, y) in ids ==> y in r
  {
    if ids == [] then []
    else
      var rest := ExtractMatching(ids[1..], prefix);
      if prefix + [Dash] <= ids[0] then
        assert Dash !in prefix ==>
          && ids[0] == Compose(prefix, ExtractId(ids[0]))
          && forall a, b :: Compose(prefix, a) == Compose(prefix, b) ==> a == b
        by {
          if Dash !in prefix {
            TaggedIsComposed(prefix, ids[0]);
            ComposeInjective(prefix);
          }
        }
        [ExtractId(ids[0])] + rest
      else rest
  }

  /** The extraction works entry by entry: it distributes over concatenation, so input order is kept. */
  lemma {:induction false} ExtractMatchingAppend(a: seq<string>, b: seq<string>, prefix: string)
    ensures ExtractMatching(a + b, prefix) == ExtractMatching(a, prefix) + ExtractMatching(b, prefix)
  {
    if a != [] {
      assert (a + b)[0] == a[0] && (a + b)[1..] == a[1..] + b;
      ExtractMatchingAppend(a[1..], b, prefix);
      ConcatAssoc(if prefix + [Dash] <= a[0] then [ExtractId(a[0])] else [],
                  ExtractMatching(a[1..], prefix), ExtractMatching(b, prefix));
    } else {
      assert a + b == b;
    }
  }

  /** `_synthesize_query_identifiers(values, id_prefix)` */
  function SynthesizeIdentifiers(values: IdValues, prefix: string): (r: seq<string>)
    ensures Dash !in prefix ==> forall y :: y in r <==> Compose(prefix, y) in Entries(values)
  {
    ExtractMatching(Entries(values), prefix)
  }

  /** The local ids, in order, of the pairs `(prefix, local)` registered under `prefix`. */
  function LocalsUnder(pairs: seq<(string, string)>, prefix: string): seq<string>
  {
    if pairs == [] then []
    else (if pairs[0].0 == prefix then [pairs[0].1] else []) + LocalsUnder(pairs[1..], prefix)
  }

  /** The broker ids of the pairs `(prefix, local)`. */
  function ComposeAll(pairs: seq<(string, string)>): (r: seq<string>)
    ensures |r| == |pairs|
    ensures forall i :: 0 <= i < |pairs| ==> r[i] == Compose(pairs[i].0, pairs[i].1)
  {
    if pairs == [] then [] else [Compose(pairs[0].0, pairs[0].1)] + ComposeAll(pairs[1..])
  }

  /**
   * Namespacing is exact: among broker ids with dash-free prefixes, extraction
   * for `prefix` yields precisely the local ids under `prefix`, in order.
   */
  lemma {:induction false} ExtractMatchingComposed(pairs: seq<(string, string)>, prefix: string)
    requires Dash !in prefix
    requires forall i :: 0 <= i < |pairs| ==> Dash !in pairs[i].0
    ensures ExtractMatching(ComposeAll(pairs), prefix) == LocalsUnder(pairs, prefix)
  {
    if pairs != [] {
      var ids := ComposeAll(pairs);
      assert ids[1..] == ComposeAll(pairs[1..]);
      ExtractMatchingComposed(pairs[1..], prefix);
      TagMatchesOnlyOwnPrefix(prefix, pairs[0].0, pairs[0].1);
      if pairs[0].0 == prefix {
        ExtractComposed(prefix, pairs[0].1);
      }
    }
  }

  /** A comma-joined string of ids (none containing a comma) is treated exactly like the list of those ids. */
  lemma JoinedLikeListed(ids: seq<string>, prefix: string)
    requires forall i :: 0 <= i < |ids| ==> Comma !in ids[i]
    ensures SynthesizeIdentifiers(Joined(Join(ids, Comma)), prefix) == SynthesizeIdentifiers(Listed(ids), prefix)
  {
    if ids == [] {
      assert Split("", Comma) == [""];
      assert !(prefix + [Dash] <= "");
      assert ExtractMatching([""], prefix) == ExtractMatching([], prefix);
    } else {
      JoinSplit(ids, Comma);
    }
  }

  /** With a dash in the prefix, only the part before its first dash is removed. */
  lemma ExtractWithDashedPrefix()
    ensures SynthesizeIdentifiers(Listed(["A-B-7"]), "A-B") == ["B-7"]
  {
    var id := "A-B-7";
    assert id[1] == Dash;
    assert FirstToken(id) == "A" by {
      assert |FirstToken(id)| <= 1;
    }
    assert id[2..] == "B-7";
    assert "A-B" + [Dash] <= id;
  }
}
