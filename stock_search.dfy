/**
 * The stock page's searchable symbol picker: the server records turned into
 * select options, and the filter that decides which options a search keeps.
 */
module StockSearch {
  import opened Wrappers
  import opened Text

  /** An entry of the select list: the value submitted and the label shown and searched
      (`labelText`, since `label` is a reserved word). */
  datatype ComboboxItem = ComboboxItem(value: string, labelText: string)

  /** A record of the symbols endpoint. */
  datatype StockRecord = StockRecord(symbol: string, securityName: string)

  // ---------------------------------------------------------------- tokens

  /** Lower-cased, trimmed and cut at every single space; never empty. */
  function Tokens(text: string): (r: seq<string>)
    ensures |r| >= 1
    ensures Join(r, ' ') == Trim(Lower(text))
  {
    Split(Trim(Lower(text)), ' ')
  }

  /** `words.some(word => word.includes(token))`. */
  function SomeWordIncludes(words: seq<string>, token: string): (b: bool)
    ensures b <==> exists w :: w in words && Includes(w, token)
  {
    if words == [] then false
    else
      var found := Includes(words[0], token) || SomeWordIncludes(words[1..], token);
      assert words[0] in words && forall w :: w in words[1..] ==> w in words;
      assert forall w :: w in words ==> w == words[0] || w in words[1..];
      found
  }

  /** `tokens.every(token => words.some(...))`. */
  function EveryTokenFound(tokens: seq<string>, words: seq<string>): (b: bool)
    ensures b <==> forall t :: t in tokens ==> exists w :: w in words && Includes(w, t)
  {
    if tokens == [] then true
    else
      var found := SomeWordIncludes(words, tokens[0]) && EveryTokenFound(tokens[1..], words);
      assert tokens[0] in tokens && forall t :: t in tokens[1..] ==> t in tokens;
      assert forall t :: t in tokens ==> t == tokens[0] || t in tokens[1..];
      found
  }

  /** The predicate of the filter: every search token lies inside some label token. */
  predicate Matches(item: ComboboxItem, search: string) {
    EveryTokenFound(Tokens(search), Tokens(item.labelText))
  }

  // ---------------------------------------------------------------- filter

  /** `a` is `b` with some elements left out and the rest in order. */
  ghost predicate IsSubsequence<T>(a: seq<T>, b: seq<T>) {
    || a == []
    || (b != [] && ((a[0] == b[0] && IsSubsequence(a[1..], b[1..])) || IsSubsequence(a, b[1..])))
  }

  /** The options a search keeps, in their original order. */
  function OptionsFilter(options: seq<ComboboxItem>, search: string): (r: seq<ComboboxItem>)
    ensures IsSubsequence(r, options)
    ensures forall o :: o in r <==> o in options && Matches(o, search)
    ensures forall o :: multiset(r)[o] == if Matches(o, search) then multiset(options)[o] else 0
  {
    if options == [] then []
    else
      var rest := OptionsFilter(options[1..], search);
      assert options == [options[0]] + options[1..];
      if Matches(options[0], search) then
        [options[0]] + rest
      else
        assert rest == [] || rest[0] != options[0];
        rest
  }

  // ---------------------------------------------------------------- options

  /** The label shown for a record: symbol, " - ", security name. */
  function Label(rec: StockRecord): string {
    rec.symbol + " - " + rec.securityName
  }

  /** The select options for the symbols the server returned; none while there is no data. */
  function StockOptions(data: Option<seq<StockRecord>>): (r: seq<ComboboxItem>)
    ensures data.None? ==> r == []
    ensures data.Some? ==> |r| == |data.value|
    ensures data.Some? ==> forall i :: 0 <= i < |r| ==>
              r[i].value == data.value[i].symbol && r[i].labelText == Label(data.value[i])
  {
    match data
    case None => []
    case Some(recs) => seq(|recs|, i requires 0 <= i < |recs| => ComboboxItem(recs[i].symbol, Label(recs[i])))
  }

  // ---------------------------------------------------------------- properties of the filter

  /** The filter sees a search only through its tokens. */
  lemma {:induction false} FilterDependsOnlyOnTokens(options: seq<ComboboxItem>, s1: string, s2: string)
    requires Tokens(s1) == Tokens(s2)
    ensures OptionsFilter(options, s1) == OptionsFilter(options, s2)
  {
    if options != [] {
      FilterDependsOnlyOnTokens(options[1..], s1, s2);
    }
  }

  /** Changing the case of the search never changes what is kept. */
  lemma SearchCaseInsensitive(options: seq<ComboboxItem>, search: string)
    ensures OptionsFilter(options, Upper(search)) == OptionsFilter(options, search)
    ensures OptionsFilter(options, Lower(search)) == OptionsFilter(options, search)
  {
    LowerOfUpper(search);
    FilterDependsOnlyOnTokens(options, Upper(search), search);
    LowerIdempotent(search);
    FilterDependsOnlyOnTokens(options, Lower(search), search);
  }

  /** Changing the case of a label never changes whether it is kept. */
  lemma LabelCaseInsensitive(item: ComboboxItem, search: string)
    ensures Matches(item.(labelText := Upper(item.labelText)), search) == Matches(item, search)
    ensures Matches(item.(labelText := Lower(item.labelText)), search) == Matches(item, search)
  {
    LowerOfUpper(item.labelText);
    LowerIdempotent(item.labelText);
  }

  /** A blank search splits to the single empty token. */
  lemma BlankSearchTokens(search: string)
    requires forall k :: 0 <= k < |search| ==> IsWhitespace(search[k])
    ensures Tokens(search) == [""]
  {
    forall k | 0 <= k < |search|
      ensures IsWhitespace(Lower(search)[k])
    {
      LowerCharWhitespace(search[k]);
    }
    TrimAllWhitespace(Lower(search));
  }

  /** An empty or whitespace-only search keeps every option. */
  lemma {:induction false} BlankSearchKeepsAll(options: seq<ComboboxItem>, search: string)
    requires forall k :: 0 <= k < |search| ==> IsWhitespace(search[k])
    ensures OptionsFilter(options, search) == options
  {
    if options != [] {
      BlankSearchTokens(search);
      var words := Tokens(options[0].labelText);
      IncludesEmptyAndSelf(words[0]);
      assert words[0] in words;
      assert Matches(options[0], search);
      BlankSearchKeepsAll(options[1..], search);
    }
  }

  /**
   * A search whose tokens include all the tokens of another keeps a
   * subsequence of what the other keeps: more words never widen the result.
   */
  lemma {:induction false} NarrowerSearchKeepsSubsequence(options: seq<ComboboxItem>, broad: string, narrow: string)
    requires forall t :: t in Tokens(broad) ==> t in Tokens(narrow)
    ensures IsSubsequence(OptionsFilter(options, narrow), OptionsFilter(options, broad))
  {
    if options != [] {
      NarrowerSearchKeepsSubsequence(options[1..], broad, narrow);
      var o := options[0];
      var restN, restB := OptionsFilter(options[1..], narrow), OptionsFilter(options[1..], broad);
      if Matches(o, narrow) {
        assert Matches(o, broad);
        assert OptionsFilter(options, narrow) == [o] + restN;
        assert OptionsFilter(options, broad) == [o] + restB;
      } else if Matches(o, broad) {
        assert OptionsFilter(options, broad) == [o] + restB;
        assert ([o] + restB)[1..] == restB;
      }
    }
  }

  // ---------------------------------------------------------------- properties of the options

  /** A non-empty text without whitespace is a single token: itself, lower-cased. */
  lemma SingleWordTokens(word: string)
    requires word != [] && NoWhitespace(word)
    ensures Tokens(word) == [Lower(word)]
  {
    var lw := Lower(word);
    NoWhitespaceLower(word);
    TrimUnchanged(lw);
    SplitNoSeparator(lw, ' ');
  }

  /** Once trimmed and split, "w - rest" starts with the token `w` when `w` has no whitespace. */
  lemma LeadingWordIsFirstToken(w: string, rest: string)
    requires w != [] && NoWhitespace(w) && ' ' !in w
    ensures Split(Trim(w + " - " + rest), ' ')[0] == w
  {
    var text := w + " - " + rest;
    var r := Trim(text);
    var i :| TrimmedAt(text, r, i);
    assert text[0] == w[0];
    assert i == 0;
    assert text[|w| + 1] == '-';
    assert |r| >= |w| + 2;
    assert r == w + [' '] + r[|w| + 1..] by {
      assert r == text[..|r|];
    }
    SplitAtSeparator(w, r[|w| + 1..], ' ');
  }

  /** The search text made of a symbol without whitespace is found in the label of that symbol. */
  lemma SymbolMatchesOwnLabel(rec: StockRecord)
    requires rec.symbol != []
    requires NoWhitespace(rec.symbol)
    ensures Matches(ComboboxItem(rec.symbol, Label(rec)), rec.symbol)
  {
    var ls := Lower(rec.symbol);
    SingleWordTokens(rec.symbol);
    NoWhitespaceLower(rec.symbol);
    LowerAppend(rec.symbol + " - ", rec.securityName);
    LowerAppend(rec.symbol, " - ");
    assert Lower(" - ") == " - ";
    assert Lower(Label(rec)) == ls + " - " + Lower(rec.securityName);
    LeadingWordIsFirstToken(ls, Lower(rec.securityName));
    var words := Tokens(Label(rec));
    assert words[0] == ls;
    IncludesEmptyAndSelf(ls);
    assert ls in words;
  }

  /** Searching a record's symbol (one without whitespace) keeps that record's option. */
  lemma SymbolSearchFindsItsOption(recs: seq<StockRecord>, i: int)
    requires 0 <= i < |recs|
    requires recs[i].symbol != []
    requires NoWhitespace(recs[i].symbol)
    ensures StockOptions(Some(recs))[i] in OptionsFilter(StockOptions(Some(recs)), recs[i].symbol)
  {
    SymbolMatchesOwnLabel(recs[i]);
  }
}
