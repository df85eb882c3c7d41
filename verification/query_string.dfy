/**
 * How a receiver reads the query of a URL: the text after the first `?` and
 * before any `#`, cut at every `&` into `name=value` parameters. The search
 * URLs the client and the server build are read back with it.
 */
module QueryString {
  import opened Text
  import opened UriComponent

  /** The `name=value` parameters of `url`'s query, in order; none when there is no `?`. */
  function QueryParameters(url: string): seq<string> {
    var beforeFragment := Split(url, '#')[0];
    var pieces := Split(beforeFragment, '?');
    if |pieces| < 2 then [] else Split(Join(pieces[1..], '?'), '&')
  }

  /** A character that no part holds and that is not the separator does not appear in the join. */
  lemma {:induction false} JoinAvoids(parts: seq<string>, sep: char, c: char)
    requires |parts| >= 1 && c != sep
    requires forall i :: 0 <= i < |parts| ==> c !in parts[i]
    ensures c !in Join(parts, sep)
    decreases |parts|
  {
    if |parts| > 1 {
      JoinAvoids(parts[1..], sep, c);
    }
  }

  lemma JoinTwo(a: string, b: string, sep: char)
    ensures Join([a, b], sep) == a + [sep] + b
  {
    assert [a, b][1..] == [b];
  }

  lemma JoinThree(a: string, b: string, c: string, sep: char)
    ensures Join([a, b, c], sep) == a + [sep] + b + [sep] + c
  {
    assert [a, b, c][1..] == [b, c];
    JoinTwo(b, c, sep);
  }

  /**
   * Reading back a URL built as `base?p1&p2&...` yields exactly the parameters
   * it was built from, provided the base has no `?` and nothing has a `#`,
   * and no parameter has a `&`.
   */
  lemma QueryOfBuiltUrl(base: string, parameters: seq<string>)
    requires |parameters| >= 1
    requires '?' !in base && '#' !in base
    requires forall i :: 0 <= i < |parameters| ==> Clean(parameters[i])
    ensures QueryParameters(base + "?" + Join(parameters, '&')) == parameters
  {
    var query := Join(parameters, '&');
    var url := base + "?" + query;
    JoinAvoids(parameters, '&', '#');
    assert '#' !in url;
    assert Split(url, '#') == [url];
    SplitAfterWord(base, '?', query);
    var pieces := Split(url, '?');
    assert pieces[1..] == Split(query, '?');
    SplitJoin(parameters, '&');
  }

  /** Text that can sit inside one parameter: it neither ends the parameter nor starts a fragment. */
  predicate Clean(s: string) {
    '&' !in s && '#' !in s
  }

  lemma CleanConcat(x: string, y: string)
    requires Clean(x) && Clean(y)
    ensures Clean(x + y)
  {
  }

  /** An encoded value is clean whatever it encodes. */
  lemma EncodedIsClean(s: string)
    ensures Clean(EncodeURIComponent(s))
  {
    var e := EncodeURIComponent(s);
    assert !Unreserved('&') && !Unreserved('#');
    forall i | 0 <= i < |e| ensures e[i] != '&' && e[i] != '#' {
    }
  }
}
