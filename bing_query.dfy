/**
 * `extract_bing_query` (present, word for word, in both agent_chat.py
 * files): the search terms of a Bing request URL. The query component is
 * the text after the first '?' and before the first '#' (section 3.4 of
 * RFC 3986); it is split on '&' into name=value fields as Python's
 * `parse_qs` does, which drops fields without '=' and fields whose value is
 * empty, and turns '+' into a space. The first field named "q" wins; when
 * there is none the URL itself is returned.
 */
module BingQuery {
  import opened Wrappers
  import opened PyStr

  /** `'+'` to `' '`, the decoding step of `unquote_plus` this model keeps. */
  function PlusToSpace(s: string): (r: string)
    ensures |r| == |s| && '+' !in r
    ensures forall i :: 0 <= i < |s| && s[i] != '+' ==> r[i] == s[i]
  {
    seq(|s|, i requires 0 <= i < |s| => if s[i] == '+' then ' ' else s[i])
  }

  /** The query component of a URL: after the first '?', before the fragment. */
  function QueryOf(url: string): string {
    var hash := IndexOf(url, '#');
    var beforeFragment := if hash < 0 then url else url[..hash];
    var question := IndexOf(beforeFragment, '?');
    if question < 0 then "" else beforeFragment[question + 1..]
  }

  /** The name=value pairs `parse_qsl` keeps from the '&'-separated fields, in order. */
  function PairsOf(fields: seq<string>): seq<(string, string)> {
    if fields == [] then []
    else
      var field := fields[0];
      var eq := IndexOf(field, '=');
      if eq < 0 || eq + 1 == |field| then PairsOf(fields[1..])
      else [(PlusToSpace(field[..eq]), PlusToSpace(field[eq + 1..]))] + PairsOf(fields[1..])
  }

  function QueryPairs(query: string): seq<(string, string)> {
    if query == "" then [] else PairsOf(Split(query, '&'))
  }

  /** `parse_qs` keeps only fields with a non-empty value (`keep_blank_values` is off). */
  lemma {:induction false} PairsOfNonEmpty(fields: seq<string>)
    ensures forall k :: 0 <= k < |PairsOf(fields)| ==> PairsOf(fields)[k].1 != ""
  {
    if fields != [] {
      PairsOfNonEmpty(fields[1..]);
    }
  }

  /** `parse_qs(query).get(name, [""])[0]` when it is non-empty. */
  function FirstValue(pairs: seq<(string, string)>, name: string): (r: Option<string>)
    ensures r.Some? ==> exists k :: 0 <= k < |pairs| && pairs[k] == (name, r.value) &&
                                    forall j :: 0 <= j < k ==> pairs[j].0 != name
    ensures r.None? <==> forall k :: 0 <= k < |pairs| ==> pairs[k].0 != name
  {
    if pairs == [] then None
    else if pairs[0].0 == name then Some(pairs[0].1)
    else FirstValue(pairs[1..], name)
  }

  /**
   * `extract_bing_query`: the first "q" field's value with '+' decoded, or the
   * URL itself when the query holds no "q" field with a non-empty value.
   */
  function ExtractBingQuery(requestUrl: string): (r: string)
    ensures var pairs := QueryPairs(QueryOf(requestUrl));
            (forall k :: 0 <= k < |pairs| ==> pairs[k].0 != "q") ==> r == requestUrl
    ensures var pairs := QueryPairs(QueryOf(requestUrl));
            r != requestUrl ==>
              && '+' !in r
              && exists k :: && 0 <= k < |pairs| && pairs[k].0 == "q" && pairs[k].1 != ""
                             && (forall j :: 0 <= j < k ==> pairs[j].0 != "q")
                             && r == PlusToSpace(pairs[k].1)
    ensures var pairs := QueryPairs(QueryOf(requestUrl));
            (exists k :: 0 <= k < |pairs| && pairs[k].0 == "q") ==> r == PlusToSpace(FirstValue(pairs, "q").value)
  {
    PairsOfNonEmpty(Split(QueryOf(requestUrl), '&'));
    match FirstValue(QueryPairs(QueryOf(requestUrl)), "q")
    case Some(q) => if q != "" then PlusToSpace(q) else requestUrl
    case None => requestUrl
  }

  /** How a client writes search terms into a URL: spaces become '+'. */
  function SpaceToPlus(s: string): (r: string)
    ensures |r| == |s|
  {
    seq(|s|, i requires 0 <= i < |s| => if s[i] == ' ' then '+' else s[i])
  }

  /** A URL whose query keeps no non-empty "q" field is returned unchanged. */
  lemma NoQueryReturnsUrl(url: string)
    requires forall p :: p in QueryPairs(QueryOf(url)) ==> p.0 != "q"
    ensures ExtractBingQuery(url) == url
  {
    var pairs := QueryPairs(QueryOf(url));
    forall k | 0 <= k < |pairs| ensures pairs[k].0 != "q" {
      assert pairs[k] in pairs;
    }
  }

  /** In particular a URL without a query component. */
  lemma NoQuestionMarkReturnsUrl(url: string)
    requires '?' !in url
    ensures ExtractBingQuery(url) == url
  {
    var hash := IndexOf(url, '#');
    var beforeFragment := if hash < 0 then url else url[..hash];
    assert forall i :: 0 <= i < |beforeFragment| ==> beforeFragment[i] == url[i];
    assert '?' !in beforeFragment;
    NoQueryReturnsUrl(url);
  }

  /**
   * Round trip: search terms written after "?q=" with spaces as '+' are
   * read back exactly, provided they are non-empty and hold none of the
   * characters that delimit the query ('&', '#'), '+' itself, or '%',
   * which would start a percent-escape.
   */
  lemma {:induction false} ExtractRoundTrip(base: string, terms: string)
    requires '?' !in base && '#' !in base
    requires terms != "" && '&' !in terms && '#' !in terms && '+' !in terms && '%' !in terms
    ensures ExtractBingQuery(base + "?q=" + SpaceToPlus(terms)) == terms
  {
    var encoded := SpaceToPlus(terms);
    assert '#' !in encoded && '&' !in encoded by {
      forall i | 0 <= i < |encoded| ensures encoded[i] != '#' && encoded[i] != '&' {
        assert terms[i] != '#' && terms[i] != '&';
      }
    }
    QueryOfSingleQuery(base, encoded);
    PairsOfSingleField("q=" + encoded, 'q', encoded);
    assert PlusToSpace("q") == "q";
    assert PlusToSpace(encoded) == terms;
  }

  /** The query component of `base?q=v` is `q=v` when `base` holds no '?' or '#'. */
  lemma QueryOfSingleQuery(base: string, value: string)
    requires '?' !in base && '#' !in base && '#' !in value
    ensures QueryOf(base + "?q=" + value) == "q=" + value
  {
    var url := base + "?q=" + value;
    assert '#' !in url by {
      forall i | 0 <= i < |url| ensures url[i] != '#' {
        if i < |base| { assert url[i] == base[i]; }
        else if i >= |base| + 3 { assert url[i] == value[i - |base| - 3]; }
      }
    }
    assert IndexOf(url, '#') == -1;
    var question := IndexOf(url, '?');
    assert url[|base|] == '?';
    assert url[..|base|] == base;
    assert question == |base|;
    assert url[question + 1..] == "q=" + value;
  }

  /** A query that is one `name=value` field with a non-empty value yields that one pair. */
  lemma PairsOfSingleField(query: string, name: char, value: string)
    requires query == [name, '='] + value && name != '=' && name != '&'
    requires value != "" && '&' !in value
    ensures QueryPairs(query) == [(PlusToSpace([name]), PlusToSpace(value))]
  {
    assert '&' !in query by {
      forall i | 0 <= i < |query| ensures query[i] != '&' {
        if i >= 2 { assert query[i] == value[i - 2]; }
      }
    }
    SplitWithoutSeparator(query, '&');
    assert IndexOf(query, '=') == 1;
    assert query[..1] == [name];
    assert query[2..] == value;
    assert PairsOf([query]) == [(PlusToSpace([name]), PlusToSpace(value))] + PairsOf([]);
  }

  lemma {:induction false} SplitWithoutSeparator(s: string, sep: char)
    requires sep !in s
    ensures Split(s, sep) == [s]
  {
    if s != [] {
      SplitWithoutSeparator(s[1..], sep);
      assert [s[0]] + s[1..] == s;
    }
  }
}
