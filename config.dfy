/** Application settings (config/settings.py): field defaults, bounds and the guard pattern list. */
module Config {
  import opened Wrappers
  import opened Text
  import Filter

  datatype LogLevel = DEBUG | INFO | WARNING | ERROR

  /** The settings record; paths are kept as their text. */
  datatype Settings = Settings(
    googleApiKey: string,
    googleSearchApiKey: string,
    googleSearchCseId: string,
    llmModel: string,
    llmTemperature: real,
    embeddingModel: string,
    chromaPersistDirectory: string,
    chromaCollectionName: string,
    rerankModel: string,
    guardEnabled: bool,
    guardSensitivePatternsStr: string,
    schedulerEnabled: bool,
    schedulerTimezone: string,
    retrievalTopK: int,
    rerankTopK: int,
    maxReflectionIterations: int,
    logLevel: LogLevel)

  /** The values every field takes when nothing is configured. */
  const Defaults: Settings := Settings(
    "", "", "",
    "gemini-2.0-flash", 0.7,
    "models/text-embedding-004",
    "./data/chroma", "knowledge_base",
    "cross-encoder/ms-marco-MiniLM-L-6-v2",
    true, "",
    true, "Asia/Taipei",
    10, 5, 3,
    INFO)

  /** Field validation: the temperature must lie in [0.0, 2.0] (the log level is constrained by its type). */
  function Validate(s: Settings): (r: Result<Settings>)
    ensures r.Success? ==> r.value == s && 0.0 <= s.llmTemperature <= 2.0
    ensures r.Failure? ==> s.llmTemperature < 0.0 || s.llmTemperature > 2.0
  {
    if 0.0 <= s.llmTemperature <= 2.0 then Success(s)
    else Failure("llm_temperature must be between 0.0 and 2.0")
  }

  /** The documented defaults pass validation. */
  lemma DefaultsValid()
    ensures Validate(Defaults) == Success(Defaults)
    ensures Defaults.retrievalTopK == 10 && Defaults.rerankTopK == 5
    ensures Defaults.chromaCollectionName == "knowledge_base" && Defaults.logLevel == INFO
  {
  }

  /** The pieces the comprehension keeps: `p.strip()` is non-empty. */
  predicate IsPattern(p: string) {
    Strip(p) != ""
  }

  /** `[p.strip() for p in parts if p.strip()]` */
  function StrippedNonEmpty(parts: seq<string>): (ps: seq<string>)
    ensures |ps| <= |parts|
    ensures forall i | 0 <= i < |ps| :: ps[i] != "" && Strip(ps[i]) == ps[i]
  {
    Filter.KeptIndicesMatch(parts, IsPattern, Strip);
    KeptIndicesBounded(parts);
    var ps := Filter.FilterMap(parts, IsPattern, Strip);
    assert forall i | 0 <= i < |ps| :: ps[i] == Strip(parts[Filter.KeptIndices(parts, IsPattern)[i]]);
    StripIdempotentAll(parts);
    ps
  }

  /** The property `guard_sensitive_patterns`: the comma-separated setting as a list of patterns. */
  function GuardSensitivePatterns(s: string): (ps: seq<string>)
    ensures s == "" ==> ps == []
    ensures |ps| <= Count(s, ',') + 1
    ensures forall i | 0 <= i < |ps| :: ps[i] != "" && Strip(ps[i]) == ps[i]
  {
    if s == "" then [] else StrippedNonEmpty(Split(s, ','))
  }

  /** At most one position is kept per element. */
  lemma {:induction false} KeptIndicesBounded(parts: seq<string>)
    ensures |Filter.KeptIndices(parts, IsPattern)| <= |parts|
    decreases |parts|
  {
    if parts != [] {
      KeptIndicesBounded(parts[..|parts| - 1]);
    }
  }

  lemma StripIdempotentAll(parts: seq<string>)
    ensures forall p | p in parts :: Strip(Strip(p)) == Strip(p)
  {
    forall p | p in parts ensures Strip(Strip(p)) == Strip(p) {
      StripIdempotent(p);
    }
  }

  lemma StripIdempotent(s: string)
    ensures Strip(Strip(s)) == Strip(s)
  {
    StripIsPiece(s);
    StripTrimmed(Strip(s));
  }

  /** Splitting on a separator that the first piece does not contain peels that piece off. */
  lemma {:induction false} SplitPeel(a: string, sep: char, b: string)
    requires sep !in a
    ensures Split(a + [sep] + b, sep) == [a] + Split(b, sep)
  {
    if a == [] {
      assert a + [sep] + b == [sep] + b;
      assert ([sep] + b)[1..] == b;
    } else {
      SplitPeel(a[1..], sep, b);
      assert (a + [sep] + b)[1..] == a[1..] + [sep] + b;
      assert [a[0]] + a[1..] == a;
    }
  }

  lemma {:induction false} SplitNoSep(a: string, sep: char)
    requires sep !in a
    ensures Split(a, sep) == [a]
  {
    if a != [] {
      SplitNoSep(a[1..], sep);
      assert [a[0]] + a[1..] == a;
    }
  }

  /** Splitting a join of separator-free pieces gives the pieces back. */
  lemma {:induction false} SplitJoin(ps: seq<string>, sep: char)
    requires ps != []
    requires forall i | 0 <= i < |ps| :: sep !in ps[i]
    ensures Split(Join(ps, [sep]), sep) == ps
  {
    if |ps| == 1 {
      SplitNoSep(ps[0], sep);
    } else {
      var rest := ps[1..];
      assert forall i | 0 <= i < |rest| :: rest[i] == ps[i + 1];
      SplitJoin(rest, sep);
      SplitPeel(ps[0], sep, Join(rest, [sep]));
      assert Join(ps, [sep]) == ps[0] + [sep] + Join(rest, [sep]);
      assert [ps[0]] + rest == ps;
    }
  }

  lemma {:induction false} StrippedNonEmptyOfTrimmed(ps: seq<string>)
    requires forall i | 0 <= i < |ps| :: ps[i] != "" && Strip(ps[i]) == ps[i]
    ensures StrippedNonEmpty(ps) == ps
    decreases |ps|
  {
    if ps != [] {
      var init := ps[..|ps| - 1];
      StrippedNonEmptyOfTrimmed(init);
      assert init + [ps[|ps| - 1]] == ps;
    }
  }

  /**
   * Round trip: writing trimmed, comma-free patterns as one comma-separated setting and
   * reading the property back yields the same patterns in the same order.
   */
  lemma GuardPatternsRoundTrip(ps: seq<string>)
    requires forall i | 0 <= i < |ps| :: ps[i] != "" && Strip(ps[i]) == ps[i] && ',' !in ps[i]
    ensures GuardSensitivePatterns(Join(ps, ",")) == ps
  {
    assert "," == [','];
    if ps != [] {
      SplitJoin(ps, ',');
      StrippedNonEmptyOfTrimmed(ps);
      Text.JoinStartsWithFirst(ps, [',']);
    }
  }

  /**
   * ps is the list of the stripped non-blank pieces, in order: ps[j] is the strip of piece idx[j],
   * those pieces are non-blank and come in increasing order, and every piece left out strips to "".
   */
  predicate StrippedPieces(pieces: seq<string>, ps: seq<string>, idx: seq<nat>) {
    && |idx| == |ps|
    && (forall j | 0 <= j < |idx| :: idx[j] < |pieces| && Strip(pieces[idx[j]]) != "" && ps[j] == Strip(pieces[idx[j]]))
    && (forall j | 0 <= j < |idx| - 1 :: idx[j] < idx[j + 1])
    && (forall k | 0 <= k < |pieces| && k !in idx :: Strip(pieces[k]) == "")
  }

  /** The comprehension keeps the stripped non-blank pieces, in order, and drops only blank ones. */
  lemma StrippedNonEmptyPieces(pieces: seq<string>) returns (idx: seq<nat>)
    ensures StrippedPieces(pieces, StrippedNonEmpty(pieces), idx)
  {
    idx := Filter.KeptIndices(pieces, IsPattern);
    Filter.KeptIndicesMatch(pieces, IsPattern, Strip);
    Filter.KeptIndicesIncrease(pieces, IsPattern);
    Filter.UnkeptFail(pieces, IsPattern);
  }

  /** The empty setting: one empty piece, which strips to "". */
  lemma EmptySettingPieces()
    ensures StrippedPieces(Split("", ','), [], [])
  {
    assert Split("", ',') == [""];
    assert Strip("") == "";
  }

  /**
   * The patterns are exactly the stripped non-blank comma pieces, in comma order, and every
   * piece left out is blank; an empty setting has the single piece "" and no patterns.
   */
  lemma PatternsOfSplit(s: string) returns (idx: seq<nat>)
    ensures StrippedPieces(Split(s, ','), GuardSensitivePatterns(s), idx)
  {
    if s == "" {
      idx := [];
      EmptySettingPieces();
    } else {
      idx := StrippedNonEmptyPieces(Split(s, ','));
    }
  }

  /** The comma pieces of the example setting. */
  lemma ExamplePieces()
    ensures Split(" a , ,b", ',') == [" a ", " ", "b"]
  {
    SplitNoSep("b", ',');
    SplitPeel(" ", ',', "b");
    assert " " + [','] + "b" == " ,b";
    SplitPeel(" a ", ',', " ,b");
    assert " a " + [','] + " ,b" == " a , ,b";
  }

  lemma ExampleStrips()
    ensures Strip(" a ") == "a" && Strip(" ") == "" && Strip("b") == "b"
  {
  }

  lemma ExampleKept()
    ensures Filter.FilterMap([" a ", " ", "b"], IsPattern, Strip) == ["a", "b"]
  {
    ExampleStrips();
    var pieces := [" a ", " ", "b"];
    Filter.FilterMapSingle(" a ", IsPattern, Strip);
    assert [" a "] + [" "] == pieces[..2];
    Filter.FilterMapSnoc([" a "], " ", IsPattern, Strip);
    Filter.FilterMapSnoc(pieces[..2], "b", IsPattern, Strip);
    assert pieces[..2] + ["b"] == pieces;
  }

  /** Blank pieces and the spaces around patterns are dropped. */
  lemma GuardPatternsExample()
    ensures GuardSensitivePatterns(" a , ,b") == ["a", "b"]
  {
    ExamplePieces();
    ExampleKept();
  }
}
