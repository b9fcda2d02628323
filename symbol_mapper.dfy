/** Symbol aliases (src/utils/symbol-mapper.ts): the six-entry table from
    coin names and tickers to the exchange's perpetual symbols, a
    case-insensitive lookup, and a scan of free text for the first word that
    names a coin. */
module SymbolMapper {
  import opened Text

  /** `symbolMap`: exactly its six entries. */
  const SymbolMap: map<string, string> := map[
    "bitcoin" := "BTCUSD", "btc" := "BTCUSD",
    "ethereum" := "ETHUSD", "eth" := "ETHUSD",
    "solana" := "SOLUSD", "sol" := "SOLUSD"]

  /** The symbols the table maps to. */
  predicate IsSymbol(s: string)
  {
    s == "BTCUSD" || s == "ETHUSD" || s == "SOLUSD"
  }

  /** `symbolMap[key]`, undefined for a key outside the table. */
  function Lookup(key: string): (r: Option<string>)
    ensures r.Some? <==> key in SymbolMap
    ensures r.Some? ==> r.value == SymbolMap[key] && IsSymbol(r.value)
  {
    if key in SymbolMap then Some(SymbolMap[key]) else None
  }

  /** `mapSymbol(input)` */
  function MapSymbol(input: string): (r: Option<string>)
    ensures r.Some? ==> IsSymbol(r.value)
  {
    Lookup(ToLower(input))
  }

  /** The lookup ignores case: upper-casing the input changes nothing. */
  lemma MapSymbolIgnoresCase(input: string)
    ensures MapSymbol(ToUpper(input)) == MapSymbol(input)
  {
    LowerOfUpper(input);
  }

  /** One word of `findSymbolInText`: the word itself, else, for a word
      ending in `usd`, the word with its first `usd` removed. */
  function ResolveWord(word: string): (r: Option<string>)
    ensures r.Some? ==> IsSymbol(r.value)
  {
    if Lookup(word).Some? then Lookup(word)
    else if EndsWith(word, "usd") then Lookup(ReplaceFirst(word, "usd", ""))
    else None
  }

  /** The first word, in order, that `resolve` maps to a symbol. */
  function FirstResolved<T>(words: seq<string>, resolve: string -> Option<T>): (r: Option<T>)
    ensures r.Some? ==>
      exists k :: 0 <= k < |words| && resolve(words[k]) == r && forall j :: 0 <= j < k ==> resolve(words[j]).None?
    ensures r.None? ==> forall k :: 0 <= k < |words| ==> resolve(words[k]).None?
  {
    if words == [] then None
    else if resolve(words[0]).Some? then resolve(words[0])
    else
      var r := FirstResolved(words[1..], resolve);
      assert r.Some? ==>
        exists k :: 0 <= k < |words| && resolve(words[k]) == r && forall j :: 0 <= j < k ==> resolve(words[j]).None? by {
        if r.Some? {
          var k :| 0 <= k < |words[1..]| && resolve(words[1..][k]) == r
            && forall j :: 0 <= j < k ==> resolve(words[1..][j]).None?;
          assert resolve(words[k + 1]) == r;
          assert forall j :: 0 <= j < k + 1 ==> resolve(words[j]).None? by {
            forall j | 0 <= j < k + 1
              ensures resolve(words[j]).None?
            {
              if j > 0 { assert words[j] == words[1..][j - 1]; }
            }
          }
        }
      }
      r
  }

  /** `findSymbolInText(text)`: the lower-cased text split on single
      spaces, scanned word by word. */
  function FindSymbolInText(text: string): (r: Option<string>)
    ensures r.Some? ==> IsSymbol(r.value)
  {
    FirstResolved(Split(ToLower(text), ' '), ResolveWord)
  }

  /** No alias contains `us`, so none contains `usd`. */
  predicate NoUs(a: string)
  {
    forall k :: 0 <= k < |a| - 1 ==> a[k] != 'u' || a[k + 1] != 's'
  }

  lemma AliasesHaveNoUs(a: string)
    requires a in SymbolMap
    ensures NoUs(a)
  {
    if a == "bitcoin" {
    } else if a == "btc" {
    } else if a == "ethereum" {
    } else if a == "eth" {
    } else if a == "solana" {
    } else {
      assert a == "sol";
    }
  }

  /** No alias ends in `d`, so none ends in `usd`. */
  lemma AliasesEndOtherwise(a: string)
    requires a in SymbolMap
    ensures |a| > 0 && a[|a| - 1] != 'd'
  {
  }

  /** In a word without `us`, followed by `usd`, the first `usd` is the appended one. */
  lemma FirstUsdAppended(a: string)
    requires NoUs(a)
    ensures IndexOf(a + "usd", "usd") == Some(|a|)
  {
    var p := a + "usd";
    assert OccursAt(p, "usd", |a|);
    forall j: nat | j < |a|
      ensures !OccursAt(p, "usd", j)
    {
      assert p[j] == a[j];
      if j + 1 < |a| {
        assert p[j + 1] == a[j + 1];
      }
      assert p[j] != 'u' || p[j + 1] != 's';
    }
  }

  /** Appending `usd` to an alias gives a word that is not itself an alias,
      and whose first `usd` is the appended one. */
  lemma StripUsd(a: string)
    requires a in SymbolMap
    ensures ReplaceFirst(a + "usd", "usd", "") == a
    ensures Lookup(a + "usd").None?
  {
    AliasesHaveNoUs(a);
    FirstUsdAppended(a);
    var p := a + "usd";
    assert p[..|a|] == a && p[|a| + 3..] == [];
    assert p[|a|] == 'u';
  }

  /** `usd` cannot overlap itself: two occurrences less than three characters
      apart are the same occurrence. */
  lemma UsdNoOverlap(p: string, i: nat, j: nat)
    requires OccursAt(p, "usd", i) && OccursAt(p, "usd", j)
    ensures i <= j < i + 3 ==> i == j
  {
    if i <= j < i + 3 {
      assert p[j] == "usd"[j - i] == 'u';
    }
  }

  /** Cutting three characters out before the last one keeps the last one. */
  lemma CutKeepsLast(p: string, i: nat)
    requires i + 3 <= |p|
    ensures i + 3 < |p| ==> (p[..i] + p[i + 3..])[|p| - 4] == p[|p| - 1]
  {
  }

  /** Removing the first `usd` of a word that ends in `usd` leaves an alias
      only when that `usd` was the ending one. */
  lemma StripUsdOnlyAtEnd(p: string)
    requires EndsWith(p, "usd")
    requires Lookup(ReplaceFirst(p, "usd", "")).Some?
    ensures p == ReplaceFirst(p, "usd", "") + "usd"
  {
    var e := |p| - 3;
    assert OccursAt(p, "usd", e);
    var i := IndexOf(p, "usd").value;
    var base := ReplaceFirst(p, "usd", "");
    AliasesEndOtherwise(base);
    UsdNoOverlap(p, i, e);
    CutKeepsLast(p, i);
    assert i == e;
    assert p == p[..i] + "usd";
  }

  /** What one word resolves to, without reference to the replacement: the
      symbol of an alias, written alone or followed by `usd`. */
  lemma ResolveWordIff(word: string, symbol: string)
    ensures ResolveWord(word) == Some(symbol) <==>
      exists a :: a in SymbolMap && SymbolMap[a] == symbol && (word == a || word == a + "usd")
  {
    if ResolveWord(word) == Some(symbol) {
      if Lookup(word).Some? {
        assert word in SymbolMap && SymbolMap[word] == symbol;
      } else {
        StripUsdOnlyAtEnd(word);
        var a := ReplaceFirst(word, "usd", "");
        assert a in SymbolMap && word == a + "usd";
      }
    }
    if exists a :: a in SymbolMap && SymbolMap[a] == symbol && (word == a || word == a + "usd") {
      var a :| a in SymbolMap && SymbolMap[a] == symbol && (word == a || word == a + "usd");
      if word != a {
        StripUsd(a);
        assert EndsWith(word, "usd") by {
          assert word[|word| - 3..] == "usd";
        }
      }
    }
  }

  // ---------------------------------------------------------------------------
  // Property access on a plain object

  /** A value read from the plain object `symbolMap`: a string of its own
      entries, or a member that every object inherits from `Object.prototype`. */
  datatype Value = Str(s: string) | Inherited(name: string)

  /** The lower-case keys under which every plain object answers with an
      inherited member, which is truthy. */
  predicate IsInheritedKey(key: string)
  {
    key == "constructor" || key == "__proto__"
  }

  /** `symbolMap[key]` as JavaScript evaluates it for a key without
      upper-case letters, which is every key the source looks up: an own
      entry, else the prototype's member of that name. Inherited names with
      capitals (`toString`, `valueOf`, `hasOwnProperty`, ...) are not
      modelled. */
  function PropertyOf(key: string): (r: Option<Value>)
    ensures r.Some? <==> key in SymbolMap || IsInheritedKey(key)
    ensures r.Some? && r.value.Str? <==> Lookup(key).Some?
    ensures Lookup(key).Some? ==> r == Some(Str(Lookup(key).value))
  {
    if key in SymbolMap then Some(Str(SymbolMap[key]))
    else if IsInheritedKey(key) then Some(Inherited(key))
    else None
  }

  /** `mapSymbol(input)` as written: the lookup also reaches the prototype. */
  function MapSymbolAsWritten(input: string): (r: Option<Value>)
    ensures r.Some? && r.value.Str? <==> MapSymbol(input).Some?
    ensures MapSymbol(input).Some? ==> r == Some(Str(MapSymbol(input).value))
  {
    PropertyOf(ToLower(input))
  }

  /** The word `constructor` is no coin, yet the lookup as written answers it
      with the `Object` constructor where the table has no entry. */
  lemma MapSymbolConstructor()
    ensures MapSymbolAsWritten("constructor") == Some(Inherited("constructor"))
    ensures MapSymbol("constructor") == None
  {
    LowerUnchanged("constructor");
  }

  /** An own entry read through the prototype-aware lookup. */
  function AsValue(r: Option<string>): Option<Value>
  {
    match r
    case None => None
    case Some(symbol) => Some(Str(symbol))
  }

  /** Two ways of resolving a word that agree on strings: whenever `proto`
      yields a string, `exact` yields the same one, and whenever `exact`
      yields one, `proto` yields it too. */
  ghost predicate AgreeOnStrings(exact: string -> Option<string>, proto: string -> Option<Value>)
  {
    (forall w :: proto(w).Some? && proto(w).value.Str? ==> exact(w) == Some(proto(w).value.s))
    && (forall w :: exact(w).Some? ==> proto(w) == AsValue(exact(w)))
  }

  /** Scanning words with a resolver that also reaches the prototype agrees
      with the own-entry scan whenever it yields a string, and entirely when
      no word resolves to an inherited member only. */
  lemma {:induction false} FirstResolvedAgrees(words: seq<string>, exact: string -> Option<string>,
                                               proto: string -> Option<Value>)
    requires AgreeOnStrings(exact, proto)
    ensures FirstResolved(words, proto).Some? && FirstResolved(words, proto).value.Str? ==>
      FirstResolved(words, exact) == Some(FirstResolved(words, proto).value.s)
    ensures FirstResolved(words, exact).None? ==>
      FirstResolved(words, proto).None? || FirstResolved(words, proto).value.Inherited?
    ensures (forall k :: 0 <= k < |words| && exact(words[k]).None? ==> proto(words[k]).None?) ==>
      FirstResolved(words, proto) == AsValue(FirstResolved(words, exact))
  {
    if words != [] {
      FirstResolvedAgrees(words[1..], exact, proto);
      assert forall k :: 0 <= k < |words[1..]| ==> words[1..][k] == words[k + 1];
    }
  }

  /** The alias loop of instrument-parser.ts, whose lookup reaches the
      prototype, agrees with the own-entry scan whenever it yields a string,
      and entirely when no word is an inherited key. */
  lemma FirstResolvedAsWritten(words: seq<string>)
    ensures FirstResolved(words, PropertyOf).Some? && FirstResolved(words, PropertyOf).value.Str? ==>
      FirstResolved(words, Lookup) == Some(FirstResolved(words, PropertyOf).value.s)
    ensures FirstResolved(words, Lookup).None? ==>
      FirstResolved(words, PropertyOf).None? || FirstResolved(words, PropertyOf).value.Inherited?
    ensures (forall k :: 0 <= k < |words| ==> !IsInheritedKey(words[k])) ==>
      FirstResolved(words, PropertyOf) == AsValue(FirstResolved(words, Lookup))
  {
    FirstResolvedAgrees(words, Lookup, PropertyOf);
  }

  /** Neither inherited key ends in `usd`. */
  lemma InheritedNotUsd(word: string)
    ensures IsInheritedKey(word) ==> !EndsWith(word, "usd")
  {
    if IsInheritedKey(word) {
      assert word[|word| - 1] != 'd';
    }
  }

  /** One word of `findSymbolInText` as written: both lookups reach the
      prototype. */
  function ResolveWordAsWritten(word: string): (r: Option<Value>)
    ensures r.Some? && r.value.Str? ==> ResolveWord(word) == Some(r.value.s)
    ensures ResolveWord(word).Some? ==> r == AsValue(ResolveWord(word))
  {
    InheritedNotUsd(word);
    if PropertyOf(word).Some? then PropertyOf(word)
    else if EndsWith(word, "usd") then PropertyOf(ReplaceFirst(word, "usd", ""))
    else None
  }

  /** `findSymbolInText(text)` as written: any string it answers is the
      answer of the own-entry search. */
  function FindSymbolInTextAsWritten(text: string): (r: Option<Value>)
    ensures r.Some? && r.value.Str? ==> FindSymbolInText(text) == Some(r.value.s)
    ensures FindSymbolInText(text).None? ==> r.None? || r.value.Inherited?
  {
    FirstResolvedAgrees(Split(ToLower(text), ' '), ResolveWord, ResolveWordAsWritten);
    FirstResolved(Split(ToLower(text), ' '), ResolveWordAsWritten)
  }

  /** `constructor` and `constructorusd` each resolve, as written, to the
      `Object` constructor, and to nothing through the own entries. */
  lemma ResolveConstructor(w: string)
    requires w == "constructor"
    ensures ResolveWordAsWritten(w) == Some(Inherited(w)) && ResolveWord(w) == None
    ensures ResolveWordAsWritten(w + "usd") == Some(Inherited(w)) && ResolveWord(w + "usd") == None
  {
    InheritedNotUsd(w);
    var wu := w + "usd";
    assert w !in SymbolMap;
    assert wu !in SymbolMap by { assert |wu| == 14; }
    assert NoUs(w);
    FirstUsdAppended(w);
    assert wu[..|w|] == w && wu[|w| + 3..] == [];
    assert ReplaceFirst(wu, "usd", "") == w;
    assert EndsWith(wu, "usd") by { assert wu[|wu| - 3..] == "usd"; }
  }

  /** A lone lower-case word without a space is the only word scanned. */
  lemma LoneWordScan(w: string)
    requires forall i :: 0 <= i < |w| ==> !IsUpperLetter(w[i]) && w[i] != ' '
    ensures FindSymbolInTextAsWritten(w) == ResolveWordAsWritten(w)
    ensures FindSymbolInText(w) == ResolveWord(w)
  {
    LowerUnchanged(w);
    SplitClean(w, ' ');
  }

  /** `constructor` and `constructorusd` are lower case and have no space. */
  lemma PlainWords(w: string)
    requires w == "constructor"
    ensures forall i :: 0 <= i < |w| ==> !IsUpperLetter(w[i]) && w[i] != ' '
    ensures forall i :: 0 <= i < |w + "usd"| ==> !IsUpperLetter((w + "usd")[i]) && (w + "usd")[i] != ' '
  {
    forall i | 0 <= i < |w + "usd"|
      ensures !IsUpperLetter((w + "usd")[i]) && (w + "usd")[i] != ' '
    {
      if i < |w| {
        assert (w + "usd")[i] == w[i];
      } else {
        assert (w + "usd")[i] == "usd"[i - |w|];
      }
    }
  }

  /** The words `constructor` and `constructorusd` name no coin, yet the
      search as written answers each with the `Object` constructor. */
  lemma FindSymbolConstructor(w: string)
    requires w == "constructor"
    ensures FindSymbolInTextAsWritten(w) == Some(Inherited(w)) && FindSymbolInText(w) == None
    ensures FindSymbolInTextAsWritten(w + "usd") == Some(Inherited(w)) && FindSymbolInText(w + "usd") == None
  {
    ResolveConstructor(w);
    PlainWords(w);
    LoneWordScan(w);
    LoneWordScan(w + "usd");
  }
}
