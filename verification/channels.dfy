/** Channel-list resolution of the Slack bot: the raw `slack_channel_name`
    option is turned into the ordered list of destination channels.

    The model follows the code literally. The guard `strpos(',', s)` has its
    haystack and needle swapped, so it fires only when `s` occurs inside the
    one-character string ",", that is for "" and ","; every other string is
    split on commas with no trimming and no dropping of empty tokens. */
module ChannelNames {
  import opened Wrappers

  /** The delimiter the channel option is split on. */
  const Comma: char := ','

  /** True when `needle` occurs in `haystack` starting at index `i`. */
  predicate OccursAt(haystack: string, needle: string, i: nat) {
    i + |needle| <= |haystack| && haystack[i..i + |needle|] == needle
  }

  /** The first index at or after `from` where `needle` occurs in `haystack`. */
  function FindFrom(haystack: string, needle: string, from: nat): (r: Option<nat>)
    ensures r.Some? ==> from <= r.value && OccursAt(haystack, needle, r.value)
    ensures r.Some? ==> forall j :: from <= j < r.value ==> !OccursAt(haystack, needle, j)
    ensures r.None? ==> forall j: nat :: from <= j ==> !OccursAt(haystack, needle, j)
    decreases |haystack| - from
  {
    if from + |needle| > |haystack| then None
    else if haystack[from..from + |needle|] == needle then Some(from)
    else FindFrom(haystack, needle, from + 1)
  }

  /** PHP's `strpos(haystack, needle)`: the index of the first occurrence of
      `needle` in `haystack`, or None where PHP returns `false`. As in PHP 8,
      the empty needle occurs at index 0. */
  function StrPos(haystack: string, needle: string): (r: Option<nat>)
    ensures r.Some? ==> OccursAt(haystack, needle, r.value)
    ensures r.Some? ==> forall j: nat :: j < r.value ==> !OccursAt(haystack, needle, j)
    ensures r.None? <==> forall j: nat :: !OccursAt(haystack, needle, j)
  {
    FindFrom(haystack, needle, 0)
  }

  /** PHP's `explode(',', s)`: the maximal comma-free pieces of `s`, in order,
      empty pieces included. Joining them with commas gives `s` back, and
      there is one piece more than `s` has commas. */
  function Explode(s: string): (r: seq<string>)
    ensures |r| == CommaCount(s) + 1
    ensures CommaFree(r)
    ensures Join(r) == s
    decreases |s|
  {
    if |s| == 0 then [""]
    else
      var rest := Explode(s[1..]);
      PushCharPieces(s[0], s[1..], rest);
      assert [s[0]] + s[1..] == s;
      PushChar(s[0], rest)
  }

  /** One step of `explode`: a comma starts a new empty piece in front, any
      other character joins the front piece. */
  function PushChar(c: char, pieces: seq<string>): seq<string>
    requires |pieces| >= 1
  {
    if c == Comma then [""] + pieces
    else [[c] + pieces[0]] + pieces[1..]
  }

  /** A step keeps the pieces comma-free and joining back to the string,
      now with `c` in front, and adds a piece exactly for a comma. */
  lemma PushCharPieces(c: char, t: string, pieces: seq<string>)
    requires |pieces| >= 1 && CommaFree(pieces) && Join(pieces) == t
    ensures |PushChar(c, pieces)| == (if c == Comma then 1 else 0) + |pieces|
    ensures CommaFree(PushChar(c, pieces))
    ensures Join(PushChar(c, pieces)) == [c] + t
  {
    var r := PushChar(c, pieces);
    if c == Comma {
      assert r[1..] == pieces;
      assert Join(r) == "" + [Comma] + Join(pieces);
    } else {
      assert r[1..] == pieces[1..];
      assert forall i :: 1 <= i < |r| ==> r[i] == pieces[i];
      if |pieces| == 1 {
        assert Join(r) == [c] + pieces[0];
      } else {
        assert Join(pieces) == pieces[0] + [Comma] + Join(pieces[1..]);
        assert Join(r) == [c] + pieces[0] + [Comma] + Join(pieces[1..]);
      }
    }
  }

  /** PHP's `implode(',', parts)`: the parts glued together with commas. */
  function Join(parts: seq<string>): string
  {
    if |parts| == 0 then ""
    else if |parts| == 1 then parts[0]
    else parts[0] + [Comma] + Join(parts[1..])
  }

  /** The number of commas in `s`. */
  function CommaCount(s: string): nat
  {
    if |s| == 0 then 0
    else (if s[0] == Comma then 1 else 0) + CommaCount(s[1..])
  }

  /** Every token in the list is free of commas. */
  predicate CommaFree(parts: seq<string>) {
    forall i :: 0 <= i < |parts| ==> Comma !in parts[i]
  }

  /** `parse_channel_names`: the channels a notification is fanned out to. */
  function ParseChannelNames(s: string): (r: seq<string>)
    ensures |r| >= 1
    ensures Join(r) == s
    ensures (Comma !in s || s == [Comma]) ==> r == [s]
    ensures (Comma in s && s != [Comma]) ==> r == Explode(s) && |r| == CommaCount(s) + 1 >= 2
  {
    ExplodeFreeSingleton(s);
    StrPosInComma(s);
    if StrPos([Comma], s).Some? then [s]
    else
      var channels := Explode(s);
      if |channels| == 1 then [s]
      else channels
  }

  /** The swapped-argument guard `strpos(',', s) !== false` holds exactly for
      the empty string and for "," itself. */
  lemma StrPosInComma(s: string)
    ensures StrPos([Comma], s).Some? <==> s == "" || s == [Comma]
  {
    if s == "" {
      assert OccursAt([Comma], s, 0);
    } else if s == [Comma] {
      assert OccursAt([Comma], s, 0);
    } else {
      forall j: nat
        ensures !OccursAt([Comma], s, j)
      {
        if j + |s| <= 1 {
          assert j == 0 && |s| == 1;
          assert [Comma][0..1] == [Comma];
        }
      }
    }
  }

  /** A comma-free string is exploded into the single token holding it. */
  lemma ExplodeFreeSingleton(s: string)
    ensures Comma !in s <==> Explode(s) == [s]
  {
    if Comma !in s {
      ExplodePrefix(s, "");
      assert s + "" == s;
      assert s + Explode("")[0] == s;
    } else {
      assert [s][0] == s;
      assert forall i :: 0 <= i < |Explode(s)| ==> Comma !in Explode(s)[i];
    }
  }

  /** Exploding a comma-free prefix glued to a rest: the prefix extends the
      first piece of the rest. */
  lemma {:induction false} ExplodePrefix(t: string, u: string)
    requires Comma !in t
    ensures Explode(t + u) == [t + Explode(u)[0]] + Explode(u)[1..]
    decreases |t|
  {
    if |t| == 0 {
      assert t + u == u;
      assert t + Explode(u)[0] == Explode(u)[0];
      assert Explode(u) == [Explode(u)[0]] + Explode(u)[1..];
    } else {
      var w, eu := t + u, Explode(u);
      assert w[0] == t[0] && w[1..] == t[1..] + u;
      ExplodePrefix(t[1..], u);
      var rest := Explode(w[1..]);
      assert rest[0] == t[1..] + eu[0] && rest[1..] == eu[1..];
      assert Explode(w) == [[t[0]] + rest[0]] + rest[1..];
      assert [t[0]] + (t[1..] + eu[0]) == t + eu[0];
    }
  }

  /** A leading comma contributes an empty first piece. */
  lemma ExplodeLeadingComma(u: string)
    ensures Explode([Comma] + u) == [""] + Explode(u)
  {
    assert ([Comma] + u)[1..] == u;
  }

  /** Exploding a comma-free token, a comma and a rest yields the token
      followed by the pieces of the rest. */
  lemma ExplodeToken(t: string, u: string)
    requires Comma !in t
    ensures Explode(t + [Comma] + u) == [t] + Explode(u)
  {
    var v, eu := [Comma] + u, Explode(u);
    ExplodeLeadingComma(u);
    var ev := Explode(v);
    assert ev[0] == "" && ev[1..] == eu;
    ExplodePrefix(t, v);
    assert t + ev[0] == t;
    assert Explode(t + v) == [t] + eu;
    assert t + [Comma] + u == t + v;
  }

  /** Exploding the comma-join of a non-empty list of comma-free tokens gives
      the list back: explode and implode are mutually inverse. */
  lemma {:induction false} JoinExplode(parts: seq<string>)
    requires |parts| >= 1
    requires CommaFree(parts)
    ensures Explode(Join(parts)) == parts
    decreases |parts|
  {
    if |parts| == 1 {
      assert Comma !in parts[0];
      ExplodeFreeSingleton(parts[0]);
    } else {
      assert CommaFree(parts[1..]) by {
        forall i | 0 <= i < |parts[1..]|
          ensures Comma !in parts[1..][i]
        {
          assert parts[1..][i] == parts[i + 1];
        }
      }
      JoinExplode(parts[1..]);
      assert Comma !in parts[0];
      ExplodeToken(parts[0], Join(parts[1..]));
      assert [parts[0]] + parts[1..] == parts;
    }
  }

  /** Resolving the comma-join of a non-empty list of comma-free channel
      names gives the names back, except for the two empty names whose join
      is "," -- the one string with a comma that the swapped `strpos` guard
      keeps whole. (The empty list joins to "", which resolves to [""].) */
  lemma ParseJoin(parts: seq<string>)
    requires |parts| >= 1
    requires CommaFree(parts)
    requires parts != ["", ""]
    ensures ParseChannelNames(Join(parts)) == parts
  {
    var s := Join(parts);
    JoinExplode(parts);
    assert |Explode(s)| == CommaCount(s) + 1;
    assert s != [Comma] by {
      assert CommaCount([Comma]) == 1;
      if |parts| == 2 {
        assert s == parts[0] + [Comma] + parts[1];
        assert |s| >= 2;
      }
    }
    if |parts| == 1 {
      assert Comma !in parts[0];
    } else {
      assert s == parts[0] + [Comma] + Join(parts[1..]);
      assert s[|parts[0]|] == Comma;
    }
  }

  /** The exception to `ParseJoin`: two empty channel names join to ",", which
      resolves to the single channel ",". */
  lemma ParseJoinCommaOnly()
    ensures Join(["", ""]) == [Comma]
    ensures ParseChannelNames(Join(["", ""])) == [[Comma]]
  {
    assert Join(["", ""]) == "" + [Comma] + Join([""]);
  }

  /** Concrete cases: the empty option is one empty channel; tokens keep
      their spaces, their order, their duplicates and their empty members. */
  lemma ParseChannelNamesExamples()
    ensures ParseChannelNames("") == [""]
    ensures ParseChannelNames("#a,#b, c") == ["#a", "#b", " c"]
    ensures ParseChannelNames("#a,,#a") == ["#a", "", "#a"]
  {
    assert Join(["#a", "#b", " c"]) == "#a,#b, c";
    ParseJoin(["#a", "#b", " c"]);
    assert Join(["#a", "", "#a"]) == "#a,,#a";
    ParseJoin(["#a", "", "#a"]);
  }
}
