/** Instrument recognition (src/utils/instrument-parser.ts): the symbol a
    trader's sentence names, tried in three tiers of decreasing precision —
    a BTC option symbol, a perpetual symbol, and a coin alias among the
    words of the sentence. */
module InstrumentParser {
  import opened Text
  import opened SymbolMapper

  // ---------------------------------------------------------------------------
  // The option pattern `(C|P)-BTC-\d+-\d{6}`

  /** `C-BTC-` or `P-BTC-` at the head of `m`. */
  predicate OptionHead(m: string)
  {
    |m| >= 6 && (m[0] == 'C' || m[0] == 'P')
    && m[1] == '-' && m[2] == 'B' && m[3] == 'T' && m[4] == 'C' && m[5] == '-'
  }

  /** `m` is, entirely, a text the option pattern describes: the head, one
      or more digits (the strike), a dash and exactly six digits (the date). */
  predicate OptionShape(m: string)
  {
    |m| >= 14 && OptionHead(m)
    && AllDigits(m[6..|m| - 7]) && m[|m| - 7] == '-' && AllDigits(m[|m| - 6..])
  }

  /** The span of `t` from `i`, `len` characters long, is an option symbol. */
  predicate OptionSpan(t: string, i: nat, len: nat)
  {
    i + len <= |t| && OptionShape(t[i..i + len])
  }

  /** The match of the option pattern anchored at `i`, as the regular
      expression engine finds it: the greedy digit run must be followed by
      a dash and six digits. Its length, or `None`. */
  function OptionAt(t: string, i: nat): (r: Option<nat>)
    ensures r.Some? ==> i + r.value <= |t|
  {
    if i <= |t| && OptionHead(t[i..]) then
      var d := Span(t[i + 6..], IsDigit);
      var j := i + 6 + d;
      if d >= 1 && j + 7 <= |t| && t[j] == '-' && AllDigits(t[j + 1..j + 7]) then Some(d + 13) else None
    else None
  }

  /** Slices of the span `t[i..i + len]` are slices of `t`. */
  lemma SpanSlices(t: string, i: nat, len: nat)
    requires i + len <= |t| && len >= 14
    ensures var m := t[i..i + len];
      m[..6] == t[i..][..6] && m[6..len - 7] == t[i + 6..i + len - 7]
      && m[len - 7] == t[i + len - 7] && m[len - 6..] == t[i + len - 6..i + len]
  {
    var m := t[i..i + len];
    assert m[..6] == t[i..i + 6] == t[i..][..6];
    var strike, strike' := m[6..len - 7], t[i + 6..i + len - 7];
    forall k | 0 <= k < |strike|
      ensures strike[k] == strike'[k]
    {
      assert m[6 + k] == t[i + 6 + k];
    }
    assert m[len - 6..] == t[i + len - 6..i + len];
  }

  /** What the engine matches is option-shaped. */
  lemma OptionAtSound(t: string, i: nat)
    ensures OptionAt(t, i).Some? ==> OptionSpan(t, i, OptionAt(t, i).value)
  {
    if OptionAt(t, i).Some? {
      var len := OptionAt(t, i).value;
      var d := len - 13;
      SpanSlices(t, i, len);
      var strike, rest := t[i + 6..i + 6 + d], t[i + 6..];
      forall k | 0 <= k < |strike|
        ensures IsDigit(strike[k])
      {
        assert strike[k] == rest[k];
      }
    }
  }

  /** An option-shaped span is what the engine matches there: the greedy
      digit run ends exactly at the span's dash. */
  lemma OptionAtComplete(t: string, i: nat, len: nat)
    requires OptionSpan(t, i, len)
    ensures OptionAt(t, i) == Some(len)
  {
    var j := i + len - 7;
    SpanSlices(t, i, len);
    assert t[i..i + len][..6] == t[i..][..6];
    assert t[i + 6..] == t[i + 6..j] + t[j..];
    SpanOf(t[i + 6..j], t[j..], IsDigit);
  }

  /** The engine's match is exactly the option-shaped span: the greedy run
      cannot be shortened, since a shorter run is followed by a digit and
      not by the dash. */
  lemma OptionAtIff(t: string, i: nat, len: nat)
    ensures OptionAt(t, i) == Some(len) <==> OptionSpan(t, i, len)
  {
    OptionAtSound(t, i);
    if OptionSpan(t, i, len) {
      OptionAtComplete(t, i, len);
    }
  }

  // ---------------------------------------------------------------------------
  // Leftmost matches

  /** The first position from `i` to `end` where `at` matches. */
  function Leftmost(at: nat -> Option<nat>, i: nat, end: nat): (r: Option<nat>)
    decreases end - i
    ensures r.Some? ==> i <= r.value <= end && at(r.value).Some?
    ensures r.Some? ==> forall j :: i <= j < r.value ==> at(j).None?
    ensures r.None? ==> forall j :: i <= j <= end ==> at(j).None?
  {
    if i > end then None
    else if at(i).Some? then Some(i)
    else Leftmost(at, i + 1, end)
  }

  /** `upperText.match(optionRegex)`: the leftmost option symbol. */
  function OptionTier(t: string): (r: Option<string>)
    ensures r.Some? ==> OptionShape(r.value)
  {
    match Leftmost(i => OptionAt(t, i), 0, |t|)
    case None => None
    case Some(p) =>
      var len := OptionAt(t, p).value;
      OptionAtIff(t, p, len);
      Some(t[p..p + len])
  }

  /** The option tier answers exactly when an option symbol occurs, and then
      with the one that starts first. */
  lemma OptionTierLeftmost(t: string)
    ensures OptionTier(t).None? <==> forall i: nat, len: nat :: !OptionSpan(t, i, len)
    ensures OptionTier(t).Some? ==>
      exists p: nat :: OptionSpan(t, p, |OptionTier(t).value|) && t[p..p + |OptionTier(t).value|] == OptionTier(t).value
        && forall q: nat, len: nat :: q < p ==> !OptionSpan(t, q, len)
  {
    var at := i => OptionAt(t, i);
    match Leftmost(at, 0, |t|)
    case None =>
      forall i: nat, len: nat
        ensures !OptionSpan(t, i, len)
      {
        OptionAtIff(t, i, len);
        assert i <= |t| ==> at(i).None?;
      }
    case Some(p) =>
      var len := OptionAt(t, p).value;
      OptionAtIff(t, p, len);
      forall q: nat, len': nat | q < p
        ensures !OptionSpan(t, q, len')
      {
        OptionAtIff(t, q, len');
        assert at(q).None?;
      }
  }

  // ---------------------------------------------------------------------------
  // The perpetual pattern `(BTC|ETH|SOL)USD`

  /** The span of `t` from `i` is one of the three perpetual symbols. */
  predicate PerpetualSpan(t: string, i: nat)
  {
    i + 6 <= |t| && IsSymbol(t[i..i + 6])
  }

  function PerpetualAt(t: string, i: nat): (r: Option<nat>)
    ensures r.Some? <==> PerpetualSpan(t, i)
    ensures r.Some? ==> r.value == 6
  {
    if PerpetualSpan(t, i) then Some(6) else None
  }

  /** `upperText.match(perpetualRegex)`: the leftmost perpetual symbol. */
  function PerpetualTier(t: string): (r: Option<string>)
    ensures r.Some? ==> IsSymbol(r.value)
  {
    match Leftmost(i => PerpetualAt(t, i), 0, |t|)
    case None => None
    case Some(p) => Some(t[p..p + 6])
  }

  /** The perpetual tier answers exactly when a perpetual symbol occurs, and
      then with the one that starts first. */
  lemma PerpetualTierLeftmost(t: string)
    ensures PerpetualTier(t).None? <==> forall i: nat :: !PerpetualSpan(t, i)
    ensures PerpetualTier(t).Some? ==>
      exists p: nat :: PerpetualSpan(t, p) && t[p..p + 6] == PerpetualTier(t).value
        && forall q: nat :: q < p ==> !PerpetualSpan(t, q)
  {
    var at := i => PerpetualAt(t, i);
    match Leftmost(at, 0, |t|)
    case None =>
      forall i: nat
        ensures !PerpetualSpan(t, i)
      {
        assert i <= |t| ==> at(i).None?;
      }
    case Some(p) =>
      forall q: nat | q < p
        ensures !PerpetualSpan(t, q)
      {
        assert at(q).None?;
      }
  }

  // ---------------------------------------------------------------------------
  // The whole search

  /** The two pattern tiers, on the upper-cased text. */
  function PatternTiers(text: string): (r: Option<string>)
    ensures r.Some? ==> OptionShape(r.value) || IsSymbol(r.value)
  {
    var t := ToUpper(text);
    match OptionTier(t)
    case Some(m) => Some(m)
    case None => PerpetualTier(t)
  }

  /** `text.toLowerCase().split(/[\s\-_]+/)` */
  function Parts(text: string): seq<string>
  {
    SplitRuns(ToLower(text))
  }

  /** `findInstrumentInText(text)`: an option symbol, else a perpetual
      symbol, else the symbol of the first word that is an alias. */
  function FindInstrumentInText(text: string): (r: Option<string>)
    ensures r.Some? ==> OptionShape(r.value) || IsSymbol(r.value)
  {
    match PatternTiers(text)
    case Some(m) => Some(m)
    case None => FirstResolved(Parts(text), Lookup)
  }

  /** The tiers in order: an option symbol anywhere wins; failing that a
      perpetual symbol; failing both, the first word that is an alias. */
  lemma FindInstrumentPrecedence(text: string)
    ensures var t := ToUpper(text);
      (exists i: nat, len: nat :: OptionSpan(t, i, len)) ==> FindInstrumentInText(text) == OptionTier(t)
    ensures var t := ToUpper(text);
      (forall i: nat, len: nat :: !OptionSpan(t, i, len)) && (exists i: nat :: PerpetualSpan(t, i)) ==>
        FindInstrumentInText(text) == PerpetualTier(t)
    ensures var t := ToUpper(text);
      (forall i: nat, len: nat :: !OptionSpan(t, i, len)) && (forall i: nat :: !PerpetualSpan(t, i)) ==>
        (FindInstrumentInText(text).None? <==> forall k :: 0 <= k < |Parts(text)| ==> Parts(text)[k] !in SymbolMap)
  {
    var t := ToUpper(text);
    OptionTierLeftmost(t);
    PerpetualTierLeftmost(t);
  }

  /** An alias answer names a word of the text: the first one that is an alias. */
  lemma FindInstrumentAlias(text: string)
    requires PatternTiers(text).None?
    ensures FindInstrumentInText(text).Some? ==>
      exists k :: 0 <= k < |Parts(text)| && Parts(text)[k] in SymbolMap
        && SymbolMap[Parts(text)[k]] == FindInstrumentInText(text).value
        && forall j :: 0 <= j < k ==> Parts(text)[j] !in SymbolMap
  {
    var parts := Parts(text);
    var r := FirstResolved(parts, Lookup);
    if r.Some? {
      var k :| 0 <= k < |parts| && Lookup(parts[k]) == r && forall j :: 0 <= j < k ==> Lookup(parts[j]).None?;
      assert parts[k] in SymbolMap && SymbolMap[parts[k]] == r.value;
    }
  }

  /** Case does not matter: the same sentence in capitals names the same
      instrument. */
  lemma FindInstrumentIgnoresCase(text: string)
    ensures FindInstrumentInText(ToUpper(text)) == FindInstrumentInText(text)
  {
    UpperIdempotent(text);
    LowerOfUpper(text);
  }

  /** Every option symbol holds a dash. */
  lemma OptionTierNeedsDash(t: string)
    requires '-' !in t
    ensures OptionTier(t) == None
  {
    OptionTierLeftmost(t);
    forall i: nat, len: nat | i + len <= |t| && len >= 2
      ensures !OptionSpan(t, i, len)
    {
      assert t[i..i + len][1] == t[i + 1];
    }
  }

  /** Every perpetual symbol ends in `D`. */
  lemma PerpetualTierNeedsD(t: string)
    requires 'D' !in t
    ensures PerpetualTier(t) == None
  {
    PerpetualTierLeftmost(t);
    forall i: nat | i + 6 <= |t|
      ensures !PerpetualSpan(t, i)
    {
      assert t[i..i + 6][5] == t[i + 5];
    }
  }

  /** The letters of the perpetual symbols: upper case, no dash, and the
      `U` of `USD` is the first `U`. */
  lemma SymbolLetters(symbol: string)
    requires IsSymbol(symbol)
    ensures |symbol| == 6 && symbol[3] == 'U'
    ensures forall k :: 0 <= k < 6 ==> UpperChar(symbol[k]) == symbol[k] && symbol[k] != '-'
    ensures forall k :: 0 <= k < 3 ==> symbol[k] != 'U'
  {
  }

  /** Every perpetual symbol has `U` as its fourth letter. */
  lemma PerpetualHasU(t: string, q: nat)
    ensures PerpetualSpan(t, q) ==> t[q + 3] == 'U'
  {
    if PerpetualSpan(t, q) {
      SymbolLetters(t[q..q + 6]);
      assert t[q..q + 6][3] == t[q + 3];
    }
  }

  /** A perpetual symbol with none before it is what the tier answers. */
  lemma PerpetualTierAt(t: string, n: nat)
    requires PerpetualSpan(t, n)
    requires forall q: nat :: q < n ==> !PerpetualSpan(t, q)
    ensures PerpetualTier(t) == Some(t[n..n + 6])
  {
    PerpetualTierLeftmost(t);
    var p: nat :| PerpetualSpan(t, p) && t[p..p + 6] == PerpetualTier(t).value
      && forall q: nat :: q < p ==> !PerpetualSpan(t, q);
    assert p == n;
  }

  /** A perpetual symbol after words with no dash and no `u` is the
      instrument the sentence names. */
  lemma PerpetualAfterWords(words: string, symbol: string)
    requires IsSymbol(symbol)
    requires forall k :: 0 <= k < |words| ==> words[k] != '-' && UpperChar(words[k]) != 'U'
    ensures FindInstrumentInText(words + symbol) == Some(symbol)
  {
    var t := ToUpper(words + symbol);
    var n := |words|;
    SymbolLetters(symbol);
    assert forall k :: n <= k < |t| ==> t[k] == symbol[k - n];
    assert OptionTier(t) == None by {
      assert '-' !in t;
      OptionTierNeedsDash(t);
    }
    assert PerpetualTier(t) == Some(symbol) by {
      assert t[n..n + 6] == symbol;
      forall q: nat | q < n
        ensures !PerpetualSpan(t, q)
      {
        PerpetualHasU(t, q);
      }
      PerpetualTierAt(t, n);
    }
  }

  /** `get ticker BTCUSD` names the BTC perpetual. */
  lemma GetTickerExample()
    ensures FindInstrumentInText("get ticker " + "BTCUSD") == Some("BTCUSD")
  {
    PerpetualAfterWords("get ticker ", "BTCUSD");
  }

  /** A single lower-case word with no dash and no `d` is looked up alone. */
  lemma LoneWord(word: string)
    requires word != []
    requires forall k :: 0 <= k < |word| ==>
      !IsUpperLetter(word[k]) && !IsSplitChar(word[k]) && word[k] != 'd'
    ensures FindInstrumentInText(word) == Lookup(word)
    ensures FindInstrumentInTextAsWritten(word) == PropertyOf(word)
  {
    var t := ToUpper(word);
    OptionTierNeedsDash(t);
    PerpetualTierNeedsD(t);
    LowerUnchanged(word);
    SplitRunsWord(word);
  }

  // ---------------------------------------------------------------------------
  // The alias tier as written

  /** `findInstrumentInText(text)` as written: the alias tier reads
      `symbolMap[part]` through the prototype. */
  function FindInstrumentInTextAsWritten(text: string): (r: Option<Value>)
    ensures r.Some? && r.value.Str? ==> FindInstrumentInText(text) == Some(r.value.s)
    ensures FindInstrumentInText(text).None? ==> r.None? || r.value.Inherited?
  {
    FirstResolvedAsWritten(Parts(text));
    match PatternTiers(text)
    case Some(m) => Some(Str(m))
    case None => FirstResolved(Parts(text), PropertyOf)
  }

  /** The sentence `constructor` names no instrument, yet the search as
      written answers it with the `Object` constructor. */
  lemma ConstructorInstrument()
    ensures FindInstrumentInTextAsWritten("constructor") == Some(Inherited("constructor"))
    ensures FindInstrumentInText("constructor") == None
  {
    LoneWord("constructor");
  }
}
