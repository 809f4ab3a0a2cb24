/**
  The bracket-fragment locator behind `safe_json_extract` (pattern `\{[\s\S]*?\}`)
  and behind the collector's query parsing (pattern `\[[\s\S]*?\]`): `re.search`
  takes the first opening delimiter and the first closing delimiter after it, and
  the text between them, both included, is handed to `json.loads`.

  `json.loads` itself is not modelled: it is a parameter `parse`, `None` where it
  raises. What any parser of RFC 8259 JSON texts guarantees, and what the lemmas
  below rely on, is collected in `Rfc8259Shaped`.
 */
module Extract {
  import opened PyJson

  /** Index of the first `c` in `s` at or after `from`, or `|s|` when there is none. */
  function IndexOf(s: string, c: char, from: nat): (i: nat)
    requires from <= |s|
    ensures from <= i <= |s|
    ensures i < |s| ==> s[i] == c
    ensures forall j :: from <= j < i ==> s[j] != c
    decreases |s| - from
  {
    if from == |s| then |s|
    else if s[from] == c then from
    else IndexOf(s, c, from + 1)
  }

  /** Where `re.search` finds `open [\s\S]*? close` in `s`: the span from its first character to its last. */
  function Locate(s: string, open: char, close: char): Option<(nat, nat)>
  {
    var p := IndexOf(s, open, 0);
    if p == |s| then None
    else
      var q := IndexOf(s, close, p + 1);
      if q == |s| then None else Some((p, q))
  }

  /** Every match of `open [\s\S]*? close` the regex engine could report: an `open`, then later a `close`. */
  ghost predicate IsMatch(s: string, open: char, close: char, p: int, q: int)
  {
    0 <= p < q < |s| && s[p] == open && s[q] == close
  }

  /**
    `Locate` is the regular-expression search: no span when the pattern matches
    nowhere; otherwise the leftmost match, and of those starting there the
    shortest (the quantifier `*?` is lazy).
   */
  lemma LocateIsLeftmostShortest(s: string, open: char, close: char)
    ensures Locate(s, open, close).None? <==> forall p, q :: !IsMatch(s, open, close, p, q)
    ensures Locate(s, open, close).Some? ==>
      var (p, q) := Locate(s, open, close).value;
      && IsMatch(s, open, close, p, q)
      && forall p', q' :: IsMatch(s, open, close, p', q') ==> p < p' || (p == p' && q <= q')
  {
    var p := IndexOf(s, open, 0);
    if p < |s| {
      var q := IndexOf(s, close, p + 1);
      if q == |s| {
        assert forall k :: p + 1 <= k < |s| ==> s[k] != close;
      } else {
        assert IsMatch(s, open, close, p, q);
      }
    }
  }

  /** The text `re.search(...).group()` returns, if the pattern matches. */
  function Candidate(s: string, open: char, close: char): (r: Option<string>)
    ensures r.Some? ==> |r.value| >= 2 && r.value[0] == open && r.value[|r.value| - 1] == close
  {
    match Locate(s, open, close)
    case None => None
    case Some((p, q)) => Some(s[p..q + 1])
  }

  /** The candidate holds its closing delimiter exactly once: at its end. */
  lemma CandidateClosesOnce(s: string, open: char, close: char)
    requires open != close
    requires Candidate(s, open, close).Some?
    ensures var c := Candidate(s, open, close).value;
      multiset(c)[close] == 1 && forall k :: 0 <= k < |c| - 1 ==> c[k] != close
  {
    var p := IndexOf(s, open, 0);
    var q := IndexOf(s, close, p + 1);
    var c := s[p..q + 1];
    assert c == s[p..q] + [close];
    forall k | 0 <= k < q - p ensures s[p..q][k] != close {
      assert s[p..q][k] == s[p + k];
    }
    assert close !in s[p..q];
  }

  /**
    The characters of `s` that lie outside JSON string literals, quotes excluded.
    `inString` says the scan is inside a literal, `escaped` that the previous
    character was a backslash inside one.
   */
  function Unquoted(s: string, inString: bool, escaped: bool): string
  {
    if s == [] then []
    else if inString then
      if escaped then Unquoted(s[1..], true, false)
      else if s[0] == '\\' then Unquoted(s[1..], true, true)
      else if s[0] == '"' then Unquoted(s[1..], false, false)
      else Unquoted(s[1..], true, false)
    else if s[0] == '"' then Unquoted(s[1..], true, false)
    else [s[0]] + Unquoted(s[1..], false, false)
  }

  lemma {:induction false} UnquotedDrawnFromText(s: string, inString: bool, escaped: bool)
    ensures multiset(Unquoted(s, inString, escaped)) <= multiset(s)
  {
    if s != [] {
      assert s == [s[0]] + s[1..];
      if inString {
        if escaped {
          UnquotedDrawnFromText(s[1..], true, false);
        } else if s[0] == '\\' {
          UnquotedDrawnFromText(s[1..], true, true);
        } else if s[0] == '"' {
          UnquotedDrawnFromText(s[1..], false, false);
        } else {
          UnquotedDrawnFromText(s[1..], true, false);
        }
      } else if s[0] == '"' {
        UnquotedDrawnFromText(s[1..], true, false);
      } else {
        UnquotedDrawnFromText(s[1..], false, false);
      }
    }
  }

  /** Outside string literals, braces pair up and brackets pair up. */
  ghost predicate Balanced(s: string)
  {
    var u := multiset(Unquoted(s, false, false));
    u['{'] == u['}'] && u['['] == u[']']
  }

  /**
    What every parser of RFC 8259 JSON texts guarantees of a text it accepts:
    a text that starts with `{` is an object and one that starts with `[` is an
    array (section 2 of RFC 8259), and outside string literals every `{` and `[`
    is closed (sections 4, 5 and 7).
   */
  ghost predicate Rfc8259Shaped(parse: string -> Option<Json>)
  {
    forall t :: parse(t).Some? ==>
      && (|t| > 0 && t[0] == '{' ==> parse(t).value.Obj?)
      && (|t| > 0 && t[0] == '[' ==> parse(t).value.Arr?)
      && Balanced(t)
  }

  /** `safe_json_extract`: parse the first `{ ... }` fragment of `raw`; never raises. */
  function SafeJsonExtract(raw: string, parse: string -> Option<Json>): (r: Option<Json>)
    ensures r.Some? ==> Candidate(raw, '{', '}').Some? && r == parse(Candidate(raw, '{', '}').value)
  {
    match Candidate(raw, '{', '}')
    case None => None
    case Some(c) => parse(c)
  }

  /** Whatever `safe_json_extract` returns, when it returns something, is a dict. */
  lemma SafeJsonExtractIsObject(raw: string, parse: string -> Option<Json>)
    requires Rfc8259Shaped(parse)
    ensures SafeJsonExtract(raw, parse).Some? ==> SafeJsonExtract(raw, parse).value.Obj?
  {
    if SafeJsonExtract(raw, parse).Some? {
      var c := Candidate(raw, '{', '}').value;
      assert parse(c).Some? && c[0] == '{';
    }
  }

  /** With no `{` followed later by a `}`, `safe_json_extract` returns None without consulting the parser. */
  lemma SafeJsonExtractNoFragment(raw: string, parse: string -> Option<Json>)
    requires forall p, q :: !IsMatch(raw, '{', '}', p, q)
    ensures SafeJsonExtract(raw, parse) == None
  {
    LocateIsLeftmostShortest(raw, '{', '}');
  }

  /**
    A nested object is cut at its first inner `}`: a candidate that opens two
    objects outside string literals cannot close both, so it does not parse.
   */
  lemma NestedObjectIsCut(raw: string, parse: string -> Option<Json>)
    requires Rfc8259Shaped(parse)
    requires Candidate(raw, '{', '}').Some?
    requires multiset(Unquoted(Candidate(raw, '{', '}').value, false, false))['{'] >= 2
    ensures SafeJsonExtract(raw, parse) == None
  {
    var c := Candidate(raw, '{', '}').value;
    CandidateClosesOnce(raw, '{', '}');
    UnquotedDrawnFromText(c, false, false);
    assert multiset(Unquoted(c, false, false))['}'] <= 1;
    assert !Balanced(c);
  }

  /** In the reply `{"a":{}}` the candidate is `{"a":{}`, which opens two objects outside string literals. */
  lemma NestedExampleCandidate()
    ensures Candidate("{\"a\":{}}", '{', '}') == Some("{\"a\":{}")
    ensures multiset(Unquoted("{\"a\":{}", false, false))['{'] == 2
  {
    var raw: string := "{\"a\":{}}";
    assert raw == ['{', '"', 'a', '"', ':', '{', '}', '}'];
    assert IndexOf(raw, '{', 0) == 0;
    assert IndexOf(raw, '}', 1) == 6;
    assert Locate(raw, '{', '}') == Some((0, 6));
    var c := raw[0..7];
    assert c == "{\"a\":{}";
    // the scan of string literals, one character at a time from the end
    assert Unquoted(c[6..], false, false) == "}" by { assert c[6..] == ['}']; }
    assert Unquoted(c[5..], false, false) == "{}" by { assert c[5..][1..] == c[6..]; }
    assert Unquoted(c[4..], false, false) == ":{}" by { assert c[4..][1..] == c[5..]; }
    assert Unquoted(c[3..], true, false) == ":{}" by { assert c[3..][1..] == c[4..]; }
    assert Unquoted(c[2..], true, false) == ":{}" by { assert c[2..][1..] == c[3..]; }
    assert Unquoted(c[1..], false, false) == ":{}" by { assert c[1..][1..] == c[2..]; }
    assert Unquoted(c, false, false) == "{:{}";
    assert "{:{}" == ['{', ':', '{', '}'];
  }

  /** So `safe_json_extract` returns None on that reply, although the reply itself is a valid object. */
  lemma NestedObjectExample(parse: string -> Option<Json>)
    requires Rfc8259Shaped(parse)
    ensures SafeJsonExtract("{\"a\":{}}", parse) == None
  {
    NestedExampleCandidate();
    NestedObjectIsCut("{\"a\":{}}", parse);
  }
}
