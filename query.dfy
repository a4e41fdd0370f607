/** The query strings the two components append to the backend's base URL, and a
    decoder that splits a query back into parameters. The decoder is a raw split at
    `&` and at the first `=`: it knows nothing of URL fragments (`#`) or of
    percent- and `+`-decoding, so it is the reading of the string the component
    builds, not of what an HTTP server would receive. */
module Query {
  /** One `key=value` pair of a query string. */
  datatype Param = Param(key: string, value: string)

  /** The search template: `?name_like=<name>`, then `&id=<id>` only for a non-empty
      id, then `&cpf=<cpf>` only for a non-empty cpf. Values are not URL-encoded. */
  function SearchQuery(name: string, id: string, cpf: string): string {
    "?name_like=" + name
      + (if id != "" then "&id=" + id else "")
      + (if cpf != "" then "&cpf=" + cpf else "")
  }

  /** The duplicate pre-check of the creation form: `?cpf=<cpf>`. */
  function PrecheckQuery(cpf: string): string {
    "?cpf=" + cpf
  }

  /** The filters a search is meant to send: the name always, even empty; the id and
      the cpf only when non-empty. */
  function SearchParams(name: string, id: string, cpf: string): seq<Param> {
    if id != "" && cpf != "" then [Param("name_like", name), Param("id", id), Param("cpf", cpf)]
    else if id != "" then [Param("name_like", name), Param("id", id)]
    else if cpf != "" then [Param("name_like", name), Param("cpf", cpf)]
    else [Param("name_like", name)]
  }

  // ---- Generic encoding of a non-empty parameter list ----

  function Render(p: Param): string {
    p.key + "=" + p.value
  }

  function Join(ps: seq<Param>): string
    requires |ps| >= 1
  {
    if |ps| == 1 then Render(ps[0]) else Render(ps[0]) + "&" + Join(ps[1..])
  }

  function Encode(ps: seq<Param>): string
    requires |ps| >= 1
  {
    "?" + Join(ps)
  }

  /** Parameters that survive a trip through a query string: no `&` anywhere and no
      `=` inside a key. */
  predicate WellFormed(ps: seq<Param>) {
    forall i :: 0 <= i < |ps| ==>
      '&' !in ps[i].key && '=' !in ps[i].key && '&' !in ps[i].value
  }

  // ---- Decoding ----

  /** The pieces of `s` between `&` separators (one piece when there is none). */
  function Segments(s: string): (parts: seq<string>)
    ensures |parts| >= 1
    ensures forall i :: 0 <= i < |parts| ==> '&' !in parts[i]
  {
    if s == [] then [""]
    else
      var rest := Segments(s[1..]);
      if s[0] == '&' then [""] + rest
      else [[s[0]] + rest[0]] + rest[1..]
  }

  /** A piece split at its first `=`: the key before, the value after (a piece with
      no `=` is all key). */
  function ParseParam(seg: string): Param {
    if seg == [] then Param("", "")
    else if seg[0] == '=' then Param("", seg[1..])
    else
      var p := ParseParam(seg[1..]);
      Param([seg[0]] + p.key, p.value)
  }

  function ParseParams(segs: seq<string>): (ps: seq<Param>)
    ensures |ps| == |segs|
  {
    if segs == [] then [] else [ParseParam(segs[0])] + ParseParams(segs[1..])
  }

  /** The parameters of a query string that starts with `?`; none otherwise. */
  function Decode(q: string): seq<Param> {
    if q != [] && q[0] == '?' then ParseParams(Segments(q[1..])) else []
  }

  // ---- Lemmas ----

  lemma {:induction false} SegmentsWithoutSeparator(a: string)
    requires '&' !in a
    ensures Segments(a) == [a]
  {
    if a != [] {
      assert a[0] in a;
      assert forall c :: c in a[1..] ==> c in a;
      SegmentsWithoutSeparator(a[1..]);
      assert [a[0]] + a[1..] == a;
    }
  }

  lemma {:induction false} SegmentsAfterSeparator(a: string, b: string)
    requires '&' !in a
    ensures Segments(a + "&" + b) == [a] + Segments(b)
  {
    var s := a + "&" + b;
    if a == [] {
      assert s[0] == '&' && s[1..] == b;
    } else {
      assert a[0] in a;
      assert forall c :: c in a[1..] ==> c in a;
      assert s[0] == a[0] && s[1..] == a[1..] + "&" + b;
      SegmentsAfterSeparator(a[1..], b);
      assert [a[0]] + a[1..] == a;
    }
  }

  lemma {:induction false} ParseRendered(k: string, v: string)
    requires '=' !in k
    ensures ParseParam(k + "=" + v) == Param(k, v)
  {
    var s := k + "=" + v;
    if k == [] {
      assert s[0] == '=' && s[1..] == v;
    } else {
      assert k[0] in k;
      assert forall c :: c in k[1..] ==> c in k;
      assert s[0] == k[0] && s[1..] == k[1..] + "=" + v;
      ParseRendered(k[1..], v);
      assert [k[0]] + k[1..] == k;
    }
  }

  /** Decoding inverts encoding for well-formed parameter lists. */
  lemma {:induction false} DecodeEncode(ps: seq<Param>)
    requires |ps| >= 1 && WellFormed(ps)
    ensures Decode(Encode(ps)) == ps
  {
    JoinParses(ps);
    assert Encode(ps)[1..] == Join(ps);
  }

  lemma {:induction false} JoinParses(ps: seq<Param>)
    requires |ps| >= 1 && WellFormed(ps)
    ensures ParseParams(Segments(Join(ps))) == ps
  {
    var p := ps[0];
    WellFormedTail(ps);
    ParseRendered(p.key, p.value);
    if |ps| == 1 {
      SegmentsWithoutSeparator(Render(p));
    } else {
      SegmentsAfterSeparator(Render(p), Join(ps[1..]));
      var segs := [Render(p)] + Segments(Join(ps[1..]));
      assert segs[1..] == Segments(Join(ps[1..]));
      JoinParses(ps[1..]);
      assert [ps[0]] + ps[1..] == ps;
    }
  }

  lemma WellFormedTail(ps: seq<Param>)
    requires |ps| >= 1 && WellFormed(ps)
    ensures '&' !in Render(ps[0]) && '=' !in ps[0].key
    ensures WellFormed(ps[1..])
  {
    forall i | 0 <= i < |ps[1..]|
      ensures '&' !in ps[1..][i].key && '=' !in ps[1..][i].key && '&' !in ps[1..][i].value
    {
      assert ps[1..][i] == ps[i + 1];
    }
  }

  /** The search template is the encoding of the filters it is meant to send. */
  lemma SearchQueryEncodes(name: string, id: string, cpf: string)
    ensures SearchQuery(name, id, cpf) == Encode(SearchParams(name, id, cpf))
  {
    TemplateParts(name, id, cpf);
    var q, a := "?", Render(Param("name_like", name));
    var b, c := Render(Param("id", id)), Render(Param("cpf", cpf));
    if id != "" && cpf != "" {
      assert SearchQuery(name, id, cpf) == q + a + ("&" + b) + ("&" + c);
      JoinThree(Param("name_like", name), Param("id", id), Param("cpf", cpf));
      Regroup3(q, a, b, c);
    } else if id != "" {
      IdOnlyEncodes(name, id, cpf);
    } else if cpf != "" {
      CpfOnlyEncodes(name, id, cpf);
    } else {
      assert SearchQuery(name, id, cpf) == q + a + "" + "";
    }
  }

  lemma IdOnlyEncodes(name: string, id: string, cpf: string)
    requires id != "" && cpf == ""
    ensures SearchQuery(name, id, cpf) == Encode(SearchParams(name, id, cpf))
  {
    TemplateParts(name, id, cpf);
    var q, a, b := "?", Render(Param("name_like", name)), Render(Param("id", id));
    assert SearchQuery(name, id, cpf) == q + a + ("&" + b) + "";
    JoinTwo(Param("name_like", name), Param("id", id));
    Regroup2(q, a, b);
  }

  lemma CpfOnlyEncodes(name: string, id: string, cpf: string)
    requires id == "" && cpf != ""
    ensures SearchQuery(name, id, cpf) == Encode(SearchParams(name, id, cpf))
  {
    TemplateParts(name, id, cpf);
    var q, a, c := "?", Render(Param("name_like", name)), Render(Param("cpf", cpf));
    assert SearchQuery(name, id, cpf) == q + a + "" + ("&" + c);
    assert q + a + "" == q + a;
    JoinTwo(Param("name_like", name), Param("cpf", cpf));
    Regroup2(q, a, c);
  }

  /** Each literal piece of the template is a separator and a rendered parameter. */
  lemma TemplateParts(name: string, id: string, cpf: string)
    ensures "?name_like=" + name == "?" + Render(Param("name_like", name))
    ensures "&id=" + id == "&" + Render(Param("id", id))
    ensures "&cpf=" + cpf == "&" + Render(Param("cpf", cpf))
  {
    LiteralsSplit();
  }

  /** The three keys of the search contain neither `&` nor `=`. */
  lemma KeysPlain()
    ensures '&' !in "name_like" && '=' !in "name_like"
    ensures '&' !in "id" && '=' !in "id"
    ensures '&' !in "cpf" && '=' !in "cpf"
  {
  }

  lemma LiteralsSplit()
    ensures "?name_like=" == "?" + "name_like" + "="
    ensures "&id=" == "&" + "id" + "="
    ensures "&cpf=" == "&" + "cpf" + "="
  {
  }

  lemma JoinTwo(p: Param, r: Param)
    ensures Join([p, r]) == Render(p) + "&" + Render(r)
  {
    assert [p, r][1..] == [r];
  }

  lemma JoinThree(p: Param, r: Param, t: Param)
    ensures Join([p, r, t]) == Render(p) + "&" + (Render(r) + "&" + Render(t))
  {
    assert [p, r, t][1..] == [r, t];
    JoinTwo(r, t);
  }

  lemma Regroup2(q: string, a: string, b: string)
    ensures q + a + ("&" + b) == q + (a + "&" + b)
  {
  }

  lemma Regroup3(q: string, a: string, b: string, c: string)
    ensures q + a + ("&" + b) + ("&" + c) == q + (a + "&" + (b + "&" + c))
  {
  }

  /** How a search query splits: exactly the intended filters, as
      long as no value contains `&` (the template does not escape it). */
  lemma DecodeSearchQuery(name: string, id: string, cpf: string)
    requires '&' !in name && '&' !in id && '&' !in cpf
    ensures Decode(SearchQuery(name, id, cpf)) == SearchParams(name, id, cpf)
  {
    SearchQueryEncodes(name, id, cpf);
    SearchParamsWellFormed(name, id, cpf);
    DecodeEncode(SearchParams(name, id, cpf));
  }

  lemma SearchParamsWellFormed(name: string, id: string, cpf: string)
    requires '&' !in name && '&' !in id && '&' !in cpf
    ensures WellFormed(SearchParams(name, id, cpf))
  {
    var n, i, c := Param("name_like", name), Param("id", id), Param("cpf", cpf);
    KeysPlain();
    var ps := SearchParams(name, id, cpf);
    if id != "" && cpf != "" {
      assert ps == [n, i, c];
    } else if id != "" {
      assert ps == [n, i];
    } else if cpf != "" {
      assert ps == [n, c];
    } else {
      assert ps == [n];
    }
  }

  /** How a pre-check query splits: the single `cpf` filter. */
  lemma DecodePrecheckQuery(cpf: string)
    requires '&' !in cpf
    ensures Decode(PrecheckQuery(cpf)) == [Param("cpf", cpf)]
  {
    assert PrecheckQuery(cpf) == Encode([Param("cpf", cpf)]);
    DecodeEncode([Param("cpf", cpf)]);
  }
}
