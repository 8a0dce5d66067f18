/** The game's closed vocabularies (src/apex.rs): the nine legends, the squad
    types, and the two parsers that turn free text into them. Both parsers
    lower-case and then trim their input before matching, and on failure
    return an error that carries the input exactly as it was given. */
module Apex {
  import opened Wrappers

  datatype Legend =
    | Bangalore
    | Bloodhound
    | Caustic
    | Gibraltar
    | Lifeline
    | Mirage
    | Octane
    | Pathfinder
    | Wraith

  /** `Unknown` exists only so that stored data can name it; parsing never
      produces it. */
  datatype SquadType = Solo | Duo | Trio | Unknown

  /** The payload of a failed legend parse: the raw, unmodified input. */
  datatype LegendParseError = LegendParseError(legendName: string)

  /** The payload of a failed squad-type parse: the raw, unmodified input. */
  datatype SquadTypeParseError = SquadTypeParseError(squadType: string)

  const AllLegends: set<Legend> :=
    {Bangalore, Bloodhound, Caustic, Gibraltar, Lifeline, Mirage, Octane, Pathfinder, Wraith}

  const AllSquadTypes: set<SquadType> := {Solo, Duo, Trio, Unknown}

  /** The lower-case word each legend is parsed from. */
  function LegendName(l: Legend): string {
    match l
    case Bangalore => "bangalore"
    case Bloodhound => "bloodhound"
    case Caustic => "caustic"
    case Gibraltar => "gibraltar"
    case Lifeline => "lifeline"
    case Mirage => "mirage"
    case Octane => "octane"
    case Pathfinder => "pathfinder"
    case Wraith => "wraith"
  }

  /** The lower-case word of each squad type; "unknown" is its stored form only. */
  function SquadTypeName(t: SquadType): string {
    match t
    case Solo => "solo"
    case Duo => "duo"
    case Trio => "trio"
    case Unknown => "unknown"
  }

  // ---------------------------------------------------------------------------
  // Normalisation: `to_lowercase` followed by `trim`
  // ---------------------------------------------------------------------------

  /** Rust's `char::is_whitespace`: the Unicode White_Space code points. */
  predicate IsWhitespace(c: char) {
    var n := c as int;
    || 0x09 <= n <= 0x0D
    || n == 0x20 || n == 0x85 || n == 0xA0 || n == 0x1680
    || 0x2000 <= n <= 0x200A
    || n == 0x2028 || n == 0x2029 || n == 0x202F || n == 0x205F || n == 0x3000
  }

  predicate AllWhitespace(s: string) {
    forall i :: 0 <= i < |s| ==> IsWhitespace(s[i])
  }

  /** Lower-casing of one character, on the ASCII range. */
  function LowerChar(c: char): char {
    if 'A' <= c <= 'Z' then (c as int + 32) as char else c
  }

  function ToLower(s: string): (r: string)
    ensures |r| == |s|
    ensures forall i :: 0 <= i < |s| ==> r[i] == LowerChar(s[i])
  {
    if |s| == 0 then [] else [LowerChar(s[0])] + ToLower(s[1..])
  }

  /** Drops leading whitespace: what is left is a suffix of the input that does
      not start with whitespace, and everything dropped was whitespace. */
  function TrimStart(s: string): (r: string)
    ensures |r| <= |s| && r == s[|s| - |r|..]
    ensures AllWhitespace(s[..|s| - |r|])
    ensures |r| > 0 ==> !IsWhitespace(r[0])
  {
    if |s| > 0 && IsWhitespace(s[0]) then TrimStart(s[1..]) else s
  }

  /** Drops trailing whitespace: what is left is a prefix of the input that
      does not end in whitespace, and everything dropped was whitespace. */
  function TrimEnd(s: string): (r: string)
    ensures |r| <= |s| && r == s[..|r|]
    ensures AllWhitespace(s[|r|..])
    ensures |r| > 0 ==> !IsWhitespace(r[|r| - 1])
  {
    if |s| > 0 && IsWhitespace(s[|s| - 1]) then TrimEnd(s[..|s| - 1]) else s
  }

  /** Rust's `str::trim`. */
  function Trim(s: string): string {
    TrimEnd(TrimStart(s))
  }

  /** No upper-case ASCII letter occurs in `s`. */
  predicate NoUpperAscii(s: string) {
    forall i :: 0 <= i < |s| ==> !('A' <= s[i] <= 'Z')
  }

  /** The key both parsers match on: `s.to_lowercase().trim()`. It is no
      longer than the input (ASCII lower-casing keeps the length), holds no
      upper-case ASCII letter, and neither starts
      nor ends with whitespace. */
  function Normalize(s: string): (r: string)
    ensures |r| <= |s|
    ensures NoUpperAscii(r)
    ensures |r| > 0 ==> !IsWhitespace(r[0]) && !IsWhitespace(r[|r| - 1])
  {
    ToLowerHasNoUpperAscii(s);
    TrimKeepsNoUpperAscii(ToLower(s));
    Trim(ToLower(s))
  }

  lemma ToLowerHasNoUpperAscii(s: string)
    ensures NoUpperAscii(ToLower(s))
  {
    var r := ToLower(s);
    forall i | 0 <= i < |r|
      ensures !('A' <= r[i] <= 'Z')
    {
      assert r[i] == LowerChar(s[i]);
    }
  }

  /** Trimming only removes characters, so it adds no upper-case ASCII letter. */
  lemma TrimKeepsNoUpperAscii(s: string)
    requires NoUpperAscii(s)
    ensures NoUpperAscii(Trim(s))
  {
    var start := TrimStart(s);
    assert NoUpperAscii(start) by {
      forall i | 0 <= i < |start|
        ensures !('A' <= start[i] <= 'Z')
      {
        assert start[i] == s[|s| - |start| + i];
      }
    }
    var r := TrimEnd(start);
    forall i | 0 <= i < |r|
      ensures !('A' <= r[i] <= 'Z')
    {
      assert r[i] == start[i];
    }
  }

  // ---------------------------------------------------------------------------
  // The parsers
  // ---------------------------------------------------------------------------

  /** The match table of `Legend::from_str`: the legend named by an already
      normalised key, if any. */
  function LegendOfKey(key: string): (r: Option<Legend>)
    ensures r.Some? ==> LegendName(r.value) == key
    ensures r.None? <==> forall l :: LegendName(l) != key
  {
    if key == "bangalore" then Some(Bangalore)
    else if key == "bloodhound" then Some(Bloodhound)
    else if key == "caustic" then Some(Caustic)
    else if key == "gibraltar" then Some(Gibraltar)
    else if key == "lifeline" then Some(Lifeline)
    else if key == "mirage" then Some(Mirage)
    else if key == "octane" then Some(Octane)
    else if key == "pathfinder" then Some(Pathfinder)
    else if key == "wraith" then Some(Wraith)
    else None
  }

  /** `Legend::from_str`. Succeeds exactly when the normalised input is the
      name of a legend, and then returns that legend; otherwise the error
      carries the raw input. */
  function ParseLegend(s: string): (r: Result<Legend, LegendParseError>)
    ensures r.Ok? ==> LegendName(r.value) == Normalize(s)
    ensures r.Err? ==> r.error == LegendParseError(s)
    ensures r.Err? <==> forall l :: LegendName(l) != Normalize(s)
  {
    match LegendOfKey(Normalize(s))
    case Some(l) => Ok(l)
    case None => Err(LegendParseError(s))
  }

  /** The match table of `SquadType::from_str`: the squad type named by an
      already normalised key, if any; "unknown" names none. */
  function SquadTypeOfKey(key: string): (r: Option<SquadType>)
    ensures r.Some? ==> r.value != Unknown && SquadTypeName(r.value) == key
    ensures r.None? <==> forall t :: t != Unknown ==> SquadTypeName(t) != key
  {
    if key == "solo" then Some(Solo)
    else if key == "duo" then Some(Duo)
    else if key == "trio" then Some(Trio)
    else None
  }

  /** `SquadType::from_str`. Succeeds exactly when the normalised input is
      "solo", "duo" or "trio"; never yields `Unknown`; otherwise the error
      carries the raw input. */
  function ParseSquadType(s: string): (r: Result<SquadType, SquadTypeParseError>)
    ensures r.Ok? ==> r.value != Unknown && SquadTypeName(r.value) == Normalize(s)
    ensures r.Err? ==> r.error == SquadTypeParseError(s)
    ensures r.Err? <==> forall t :: t != Unknown ==> SquadTypeName(t) != Normalize(s)
  {
    match SquadTypeOfKey(Normalize(s))
    case Some(t) => Ok(t)
    case None => Err(SquadTypeParseError(s))
  }

  /** The `Display` text of a legend parse error; it quotes the raw input
      verbatim at its end. */
  function LegendErrorMessage(e: LegendParseError): (m: string)
    ensures |m| == 15 + |e.legendName|
    ensures m[15..] == e.legendName
  {
    "Unknown legend " + e.legendName
  }

  /** The `Display` text of a squad-type parse error; it quotes the raw input
      verbatim after its 20-character lead-in. */
  function SquadTypeErrorMessage(e: SquadTypeParseError): (m: string)
    ensures 20 + |e.squadType| <= |m|
    ensures m[20..20 + |e.squadType|] == e.squadType
  {
    "Unknown squad type \"" + e.squadType + "\". Supported types are `solo`, `duo` and `trio`."
  }

  // ---------------------------------------------------------------------------
  // Properties of the parsers
  // ---------------------------------------------------------------------------

  /** Lower-casing leaves whitespace alone and distributes over concatenation. */
  lemma ToLowerPadded(pre: string, s: string, post: string)
    requires AllWhitespace(pre) && AllWhitespace(post)
    ensures ToLower(pre + s + post) == pre + ToLower(s) + post
  {
    var lhs := ToLower(pre + s + post);
    var rhs := pre + ToLower(s) + post;
    assert |lhs| == |rhs|;
    forall i | 0 <= i < |lhs|
      ensures lhs[i] == rhs[i]
    {
      if i < |pre| {
        assert (pre + s + post)[i] == pre[i];
      } else if i < |pre| + |s| {
        assert (pre + s + post)[i] == s[i - |pre|];
      } else {
        assert (pre + s + post)[i] == post[i - |pre| - |s|];
      }
    }
  }

  /** Leading whitespace is invisible to `TrimStart`. */
  lemma {:induction false} TrimStartSkipsWhitespace(pre: string, s: string)
    requires AllWhitespace(pre)
    ensures TrimStart(pre + s) == TrimStart(s)
    decreases |pre|
  {
    if |pre| > 0 {
      assert (pre + s)[0] == pre[0];
      assert (pre + s)[1..] == pre[1..] + s;
      TrimStartSkipsWhitespace(pre[1..], s);
    } else {
      assert pre + s == s;
    }
  }

  /** Trailing whitespace is invisible to `TrimEnd`. */
  lemma {:induction false} TrimEndSkipsWhitespace(s: string, post: string)
    requires AllWhitespace(post)
    ensures TrimEnd(s + post) == TrimEnd(s)
    decreases |post|
  {
    if |post| > 0 {
      var shorter := post[..|post| - 1];
      assert (s + post)[|s + post| - 1] == post[|post| - 1];
      assert (s + post)[..|s + post| - 1] == s + shorter;
      TrimEndSkipsWhitespace(s, shorter);
    } else {
      assert s + post == s;
    }
  }

  /** Appending after a string that does not consist solely of whitespace
      does not change where `TrimStart` stops. */
  lemma {:induction false} TrimStartAppend(s: string, post: string)
    ensures TrimStart(s + post) == if TrimStart(s) == [] then TrimStart(post) else TrimStart(s) + post
    decreases |s|
  {
    if |s| == 0 {
      assert s + post == post;
    } else {
      assert (s + post)[0] == s[0];
      assert (s + post)[1..] == s[1..] + post;
      if IsWhitespace(s[0]) {
        TrimStartAppend(s[1..], post);
      }
    }
  }

  /** Whitespace on either side is invisible to `Trim`. */
  lemma TrimPadded(pre: string, s: string, post: string)
    requires AllWhitespace(pre) && AllWhitespace(post)
    ensures Trim(pre + s + post) == Trim(s)
  {
    assert pre + s + post == pre + (s + post);
    TrimStartSkipsWhitespace(pre, s + post);
    TrimStartAppend(s, post);
    var t := TrimStart(s);
    if t == [] {
      assert TrimStart(post) == [] by {
        TrimStartSkipsWhitespace(post, []);
        assert post + [] == post;
      }
    } else {
      TrimEndSkipsWhitespace(t, post);
    }
  }

  /** Parsing ignores letter case and surrounding whitespace: two inputs that
      lower-case alike, one of them padded with whitespace, normalise alike. */
  lemma NormalizeIgnoresCaseAndPadding(pre: string, s: string, post: string, t: string)
    requires AllWhitespace(pre) && AllWhitespace(post)
    requires ToLower(s) == ToLower(t)
    ensures Normalize(pre + s + post) == Normalize(t)
  {
    ToLowerPadded(pre, s, post);
    TrimPadded(pre, ToLower(s), post);
  }

  lemma ParseLegendIgnoresCaseAndPadding(pre: string, s: string, post: string, t: string)
    requires AllWhitespace(pre) && AllWhitespace(post)
    requires ToLower(s) == ToLower(t)
    ensures ParseLegend(pre + s + post).Ok? == ParseLegend(t).Ok?
    ensures ParseLegend(t).Ok? ==> ParseLegend(pre + s + post).value == ParseLegend(t).value
  {
    NormalizeIgnoresCaseAndPadding(pre, s, post, t);
  }

  lemma ParseSquadTypeIgnoresCaseAndPadding(pre: string, s: string, post: string, t: string)
    requires AllWhitespace(pre) && AllWhitespace(post)
    requires ToLower(s) == ToLower(t)
    ensures ParseSquadType(pre + s + post).Ok? == ParseSquadType(t).Ok?
    ensures ParseSquadType(t).Ok? ==> ParseSquadType(pre + s + post).value == ParseSquadType(t).value
  {
    NormalizeIgnoresCaseAndPadding(pre, s, post, t);
  }

  predicate IsLowerWord(s: string) {
    forall i :: 0 <= i < |s| ==> 'a' <= s[i] <= 'z'
  }

  /** A non-empty word of lower-case ASCII letters is its own normal form. */
  lemma NormalizeLowerWord(s: string)
    requires |s| > 0 && IsLowerWord(s)
    ensures Normalize(s) == s
  {
    assert ToLower(s) == s by {
      assert forall i :: 0 <= i < |s| ==> LowerChar(s[i]) == s[i];
    }
    assert TrimStart(s) == s by {
      assert !IsWhitespace(s[0]);
    }
    assert TrimEnd(s) == s by {
      assert !IsWhitespace(s[|s| - 1]);
    }
  }

  /** Normalising twice is normalising once: a match key is its own key. */
  lemma NormalizeIdempotent(s: string)
    ensures Normalize(Normalize(s)) == Normalize(s)
  {
    var key := Normalize(s);
    assert ToLower(key) == key by {
      assert forall i :: 0 <= i < |key| ==> LowerChar(key[i]) == key[i];
    }
    if |key| > 0 {
      assert TrimStart(key) == key by {
        assert !IsWhitespace(key[0]);
      }
      assert TrimEnd(key) == key by {
        assert !IsWhitespace(key[|key| - 1]);
      }
    }
  }

  /** The name table and the match table agree. */
  lemma LegendOfName(l: Legend)
    ensures |LegendName(l)| > 0 && IsLowerWord(LegendName(l))
    ensures LegendOfKey(LegendName(l)) == Some(l)
  {
    match l
    case Bangalore =>
    case Bloodhound =>
    case Caustic =>
    case Gibraltar =>
    case Lifeline =>
    case Mirage =>
    case Octane =>
    case Pathfinder =>
    case Wraith =>
  }

  /** Round trip: every legend parses back from its name. */
  lemma ParseLegendName(l: Legend)
    ensures ParseLegend(LegendName(l)) == Ok(l)
  {
    LegendOfName(l);
    NormalizeLowerWord(LegendName(l));
  }

  lemma SquadTypeOfName(t: SquadType)
    requires t != Unknown
    ensures |SquadTypeName(t)| > 0 && IsLowerWord(SquadTypeName(t))
    ensures SquadTypeOfKey(SquadTypeName(t)) == Some(t)
  {
    match t
    case Solo =>
    case Duo =>
    case Trio =>
  }

  /** Round trip: each parseable squad type parses back from its name. */
  lemma ParseSquadTypeName(t: SquadType)
    requires t != Unknown
    ensures ParseSquadType(SquadTypeName(t)) == Ok(t)
  {
    SquadTypeOfName(t);
    NormalizeLowerWord(SquadTypeName(t));
  }

  /** The stored word "unknown" (in any case, with any padding) is rejected. */
  lemma UnknownIsNotParsed(s: string)
    requires Normalize(s) == SquadTypeName(Unknown)
    ensures ParseSquadType(s) == Err(SquadTypeParseError(s))
  {
  }
}
