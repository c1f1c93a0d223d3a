/**
 * The session-key lookup of `u2s_sdk/utils.py`: `urlparse`, then `parse_qs`
 * on the query component, then the first value bound to `key`.
 */
module Utils {
  import opened Wrappers
  import opened Text

  /**
   * The query component of a URI as `urlsplit` finds it (section 3.4 of RFC 3986):
   * tabs, carriage returns and line feeds are deleted first, the fragment is cut
   * off at the first `#`, and the query is what follows the first `?` of the rest
   * (empty when there is none). The scheme, the authority and the leading
   * whitespace `urlsplit` strips all lie before that `?` and cannot change it.
   */
  function QueryComponent(uri: string): (q: string)
  {
    QueryOfClean(RemoveUnsafe(uri))
  }

  /** The query of a URI that holds no character `urlsplit` deletes. */
  function QueryOfClean(clean: string): (q: string)
    ensures '?' !in clean ==> q == ""
  {
    var beforeFragment := match Find(clean, '#')
      case Some(i) => clean[..i]
      case None => clean;
    assert forall c :: c in beforeFragment ==> c in clean;
    match Find(beforeFragment, '?')
    case Some(i) => beforeFragment[i + 1..]
    case None => ""
  }

  lemma QueryOfCleanParts(p: string, q: string, f: string)
    requires '?' !in p && '#' !in p && '#' !in q
    ensures QueryOfClean(p + "?" + q + "#" + f) == q
    ensures QueryOfClean(p + "?" + q) == q
  {
    var pq := p + "?" + q;
    assert pq == p + ['?'] + q;
    assert '#' !in pq;
    FindAfterFreePrefix(pq, '#', f);
    assert pq + "#" + f == pq + ['#'] + f;
    assert (pq + "#" + f)[..|pq|] == pq;
    FindAfterFreePrefix(p, '?', q);
    assert pq[|p| + 1..] == q;
  }

  /** A `#` before any `?` starts the fragment, so the URI has no query. */
  lemma FragmentFirst(p: string, f: string)
    requires '?' !in p && '#' !in p
    ensures QueryOfClean(p + "#" + f) == ""
  {
    FindAfterFreePrefix(p, '#', f);
    assert p + "#" + f == p + ['#'] + f;
    assert (p + "#" + f)[..|p|] == p;
  }

  /**
   * What `parse_qsl` makes of one `&`-separated field when looking for `name`:
   * a field with no `=` or with an empty value is dropped; otherwise it is split
   * at its first `=` and `+` is read as a space in both halves.
   */
  function FieldValue(field: string, name: string): (r: Option<string>)
    ensures r.Some? ==> '=' in field && |r.value| > 0
  {
    match Find(field, '=')
    case None => None
    case Some(i) =>
      if i + 1 == |field| then None
      else if PlusToSpace(field[..i]) == name then Some(PlusToSpace(field[i + 1..]))
      else None
  }

  /** The first value bound to `name` among `fields`, in order. */
  function LookupFields(fields: seq<string>, name: string): (r: Option<string>)
    ensures r.Some? ==> |r.value| > 0
  {
    if fields == [] then None
    else match FieldValue(fields[0], name)
      case Some(v) => Some(v)
      case None => LookupFields(fields[1..], name)
  }

  /** `parse_qs(query).get(name, [None])[0]`. */
  function QueryLookup(query: string, name: string): (r: Option<string>)
  {
    LookupFields(Split(query, '&'), name)
  }

  /** `get_key_value_from_uri`: the first non-blank `key` value of the URI's query. */
  function GetKeyValueFromUri(uri: string): (r: Option<string>)
    ensures r.Some? ==> |r.value| > 0
  {
    QueryLookup(QueryComponent(uri), "key")
  }

  /** A URI without `?` has no query, hence no key; in particular the empty string. */
  lemma NoQueryNoKey(uri: string)
    requires '?' !in uri
    ensures GetKeyValueFromUri(uri) == None
  {
    assert '?' !in RemoveUnsafe(uri);
    assert Split("", '&') == [""];
  }

  /** A `key` binding after the fragment mark is never found, even behind a `?`. */
  lemma FragmentBeforeQuery(p: string, f: string)
    requires '?' !in p && '#' !in p
    ensures GetKeyValueFromUri(p + "#" + f) == None
  {
    RemoveUnsafeAppend(p + "#", f);
    RemoveUnsafeAppend(p, "#");
    assert RemoveUnsafe("#") == "#";
    FragmentFirst(RemoveUnsafe(p), RemoveUnsafe(f));
    assert Split("", '&') == [""];
  }

  /**
   * The part of a URI before its query on which `urlsplit` cannot raise: no
   * `?` or `#` (so that the query starts at the first `?`), no `[` or `]` (a
   * host with an unmatched or invalid bracket raises `ValueError`), and only
   * ASCII (a non-ASCII network location whose NFKC form holds one of `/?#@:`
   * raises too).
   */
  predicate PlainPrefix(prefix: string)
  {
    && '?' !in prefix && '#' !in prefix && '[' !in prefix && ']' !in prefix
    && forall c :: c in prefix ==> c as int < 128
  }

  /** Deleting unsafe characters works piece by piece on a URI with a query and a fragment. */
  lemma RemoveUnsafeParts(prefix: string, query: string, fragment: string)
    ensures RemoveUnsafe(prefix + "?" + query + "#" + fragment)
         == RemoveUnsafe(prefix) + "?" + RemoveUnsafe(query) + "#" + RemoveUnsafe(fragment)
    ensures RemoveUnsafe(prefix + "?" + query) == RemoveUnsafe(prefix) + "?" + RemoveUnsafe(query)
  {
    assert prefix + "?" + query + "#" + fragment == (prefix + "?" + query) + ("#" + fragment);
    RemoveUnsafeAppend(prefix + "?" + query, "#" + fragment);
    RemoveUnsafeAppend(prefix + "?", query);
    RemoveUnsafeAppend(prefix, "?");
    RemoveUnsafeAppend("#", fragment);
    assert RemoveUnsafe("?") == "?";
    assert RemoveUnsafe("#") == "#";
  }

  /**
   * Only the query is examined: whatever precedes the first `?` and whatever
   * follows the `#` leave the result unchanged, as long as `urlsplit` accepts
   * the part before the query.
   */
  lemma OnlyQueryMatters(prefix: string, query: string, fragment: string)
    requires PlainPrefix(prefix) && '#' !in query
    ensures GetKeyValueFromUri(prefix + "?" + query + "#" + fragment)
         == QueryLookup(RemoveUnsafe(query), "key")
    ensures GetKeyValueFromUri(prefix + "?" + query)
         == QueryLookup(RemoveUnsafe(query), "key")
  {
    RemoveUnsafeParts(prefix, query, fragment);
    QueryOfCleanParts(RemoveUnsafe(prefix), RemoveUnsafe(query), RemoveUnsafe(fragment));
  }

  /** The first binding of `key` wins, whatever follows it. */
  lemma FirstKeyWins(value: string, rest: string)
    requires |value| > 0 && '&' !in value && '+' !in value
    ensures QueryLookup("key=" + value + "&" + rest, "key") == Some(value)
  {
    var field := "key=" + value;
    assert '&' !in field;
    SplitCons(field, '&', rest);
    assert "key=" + value + "&" + rest == field + ['&'] + rest;
    FindAfterFreePrefix("key", '=', value);
    assert field == "key" + ['='] + value;
    assert field[..3] == "key";
    assert field[4..] == value;
    assert PlusToSpace(value) == value;
  }

  /** A query made of a single binding of `key` yields its value. */
  lemma SoleKey(value: string)
    requires |value| > 0 && '&' !in value && '+' !in value
    ensures QueryLookup("key=" + value, "key") == Some(value)
  {
    var field := "key=" + value;
    assert '&' !in field;
    assert Find(field, '&') == None;
    FindAfterFreePrefix("key", '=', value);
    assert field == "key" + ['='] + value;
    assert field[..3] == "key";
    assert field[4..] == value;
    assert PlusToSpace(value) == value;
  }

  /**
   * A field that binds nothing to `name` (no `=`, an empty value, another name)
   * is skipped: the lookup goes on with the fields after it. This is how a bare
   * `key` or a blank `key=` counts as absent.
   */
  lemma UnboundFieldSkipped(field: string, rest: string, name: string)
    requires '&' !in field && FieldValue(field, name) == None
    ensures QueryLookup(field + "&" + rest, name) == QueryLookup(rest, name)
  {
    SplitCons(field, '&', rest);
    assert field + "&" + rest == field + ['&'] + rest;
  }

  /** A bare `key` with no `=` binds nothing. */
  lemma BareKeyIsAbsent(rest: string)
    ensures QueryLookup("key&" + rest, "key") == QueryLookup(rest, "key")
  {
    assert "key&" + rest == "key" + "&" + rest;
    UnboundFieldSkipped("key", rest, "key");
  }

  /** A blank `key=` binds nothing either. */
  lemma BlankKeyIsAbsent(rest: string)
    ensures QueryLookup("key=&" + rest, "key") == QueryLookup(rest, "key")
  {
    FindAfterFreePrefix("key", '=', "");
    assert "key=" == "key" + ['='] + "";
    assert FieldValue("key=", "key") == None;
    assert "key=&" + rest == "key=" + "&" + rest;
    UnboundFieldSkipped("key=", rest, "key");
  }

  /** A query string free of characters that `urlsplit` deletes or `parse_qs` rewrites. */
  predicate PlainText(s: string)
  {
    forall c :: c in s ==> !IsUnsafeUrlChar(c) && c != '&' && c != '+' && c != '#'
  }

  /** Text holding no character that `urlsplit` deletes. */
  predicate Clean(s: string)
  {
    forall c :: c in s ==> !IsUnsafeUrlChar(c)
  }

  /** Clean text is left alone by `urlsplit`. */
  lemma CleanUnchanged(s: string)
    requires Clean(s)
    ensures RemoveUnsafe(s) == s
  {
    RemoveUnsafeNoop(s);
  }

  /** Clean text joined to clean text is clean; plain text is clean. */
  lemma CleanJoin(a: string, b: string)
    requires Clean(a) || PlainText(a)
    requires Clean(b) || PlainText(b)
    ensures Clean(a + b)
  {
    assert forall c :: c in a + b ==> c in a || c in b;
  }

  /** The field names and separator used below are clean. */
  lemma LiteralsClean()
    ensures Clean("key=") && Clean("other=") && Clean("&")
  {
    assert forall c :: c in "key=" ==> c == 'k' || c == 'e' || c == 'y' || c == '=';
    assert forall c :: c in "other=" ==> c == 'o' || c == 't' || c == 'h' || c == 'e' || c == 'r' || c == '=';
    assert forall c :: c in "&" ==> c == '&';
  }

  /**
   * `<host>?key=<value>` yields `value`: the SDK's own test with
   * `https://example.com/path?key=value` and the upload location `/upload?key=123`.
   */
  lemma KeyPresent(host: string, value: string)
    requires PlainPrefix(host)
    requires |value| > 0 && PlainText(value)
    ensures var query := "key=" + value; GetKeyValueFromUri(host + "?" + query) == Some(value)
  {
    LiteralsClean();
    CleanJoin("key=", value);
    CleanUnchanged("key=" + value);
    OnlyQueryMatters(host, "key=" + value, "");
    SoleKey(value);
  }

  /** A query whose only field binds another name has no key. */
  lemma OtherNameOnly(value: string)
    requires PlainText(value)
    ensures QueryLookup("other=" + value, "key") == None
  {
    var q := "other=" + value;
    assert '&' !in q;
    FindAfterFreePrefix("other", '=', value);
    assert q == "other" + ['='] + value;
    assert q[..5] == "other";
    assert PlusToSpace("other") == "other";
    assert FieldValue(q, "key") == None;
    assert Split(q, '&') == [q];
    assert LookupFields([q], "key") == LookupFields([q][1..], "key");
  }

  /** `<host>?other=<value>` has no key (the SDK's test with `https://example.com/path`). */
  lemma KeyMissing(host: string, value: string)
    requires PlainPrefix(host)
    requires PlainText(value)
    ensures var query := "other=" + value; GetKeyValueFromUri(host + "?" + query) == None
  {
    LiteralsClean();
    CleanJoin("other=", value);
    CleanUnchanged("other=" + value);
    OnlyQueryMatters(host, "other=" + value, "");
    OtherNameOnly(value);
  }

  /** With `key` given twice, the first value is returned. */
  lemma KeyRepeated(host: string, first: string, second: string)
    requires PlainPrefix(host)
    requires |first| > 0 && PlainText(first) && PlainText(second)
    ensures var query := "key=" + first + "&" + ("key=" + second);
      GetKeyValueFromUri(host + "?" + query) == Some(first)
  {
    var rest := "key=" + second;
    LiteralsClean();
    CleanJoin("key=", first);
    CleanJoin("key=" + first, "&");
    CleanJoin("key=", second);
    CleanJoin("key=" + first + "&", rest);
    CleanUnchanged("key=" + first + "&" + rest);
    OnlyQueryMatters(host, "key=" + first + "&" + rest, "");
    FirstKeyWins(first, rest);
  }
}
