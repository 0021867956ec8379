/** The identity-sync query-string builder (`UrlBuilder`).

    The builder really holds a growing text and a `hasValue` flag; the model
    pairs that concrete state with an abstract view, the sequence of
    `key=value` parameters appended so far, and proves the text is always the
    `&`-join of those parameters. The tests read a query string back by
    splitting it at `&`; `Params` models that reading. */
module UrlBuilder {
  import opened Nullable
  import opened Seqs
  import Decimal

  /** Parameter name for identities with a numeric code. */
  const CustomIdParam := "d_cid"
  /** Parameter name for identities with a textual code. */
  const CustomIdNameParam := "d_cid_ic"
  /** Separator between an identity's code and its value (an escaped 0x01). */
  const CodeSeparator := "%01"

  /** One `key=value` parameter. */
  datatype Token = Token(key: string, value: string)

  /** The text of one parameter. */
  function Param(t: Token): string {
    t.key + "=" + t.value
  }

  /** The builder's state: the text so far and whether a pair was written yet. */
  datatype Builder = Builder(text: string, hasValue: bool)

  /** A builder nothing was appended to. */
  const NewBuilder := Builder("", false)

  /** The `&`-join of a sequence of parameters. */
  function Render(ts: seq<Token>): string
    decreases |ts|
  {
    if |ts| == 0 then ""
    else if |ts| == 1 then Param(ts[0])
    else Render(ts[..|ts| - 1]) + "&" + Param(ts[|ts| - 1])
  }

  /** The parameters one `append(key, value)` contributes: none when the key
      or the value is null or empty, otherwise exactly `key=value`. */
  function Accepted(key: Option<string>, value: Option<string>): seq<Token> {
    if IsEmpty(key) || IsEmpty(value) then [] else [Token(key.value, value.value)]
  }

  /** The builder's text and flag are those of the parameter sequence `ts`. */
  predicate Represents(b: Builder, ts: seq<Token>) {
    b.text == Render(ts) && b.hasValue == (|ts| > 0)
  }

  /** `append(key, value)`: a null or empty side leaves the builder as it is;
      otherwise the pair is written, preceded by `&` unless it is the first. */
  function Append(b: Builder, key: Option<string>, value: Option<string>): (r: Builder)
    ensures IsEmpty(key) || IsEmpty(value) ==> r == b
    ensures !IsEmpty(key) && !IsEmpty(value) ==> r.hasValue && |r.text| > |b.text|
  {
    if IsEmpty(key) || IsEmpty(value) then b
    else
      var sep := if b.hasValue then "&" else "";
      Builder(b.text + sep + key.value + "=" + value.value, true)
  }

  lemma RenderSnoc(ts: seq<Token>, t: Token)
    requires |ts| > 0
    ensures Render(ts + [t]) == Render(ts) + "&" + Param(t)
  {
    assert (ts + [t])[..|ts|] == ts;
  }

  /** Appending keeps the builder's text equal to the join of the accepted
      parameters: `&` only ever appears between two parameters. */
  lemma AppendRepresents(b: Builder, ts: seq<Token>, key: Option<string>, value: Option<string>)
    requires Represents(b, ts)
    ensures Represents(Append(b, key, value), ts + Accepted(key, value))
  {
    if !IsEmpty(key) && !IsEmpty(value) {
      var t := Token(key.value, value.value);
      if |ts| > 0 {
        RenderSnoc(ts, t);
      } else {
        assert ts + [t] == [t];
      }
    } else {
      assert ts + [] == ts;
    }
  }

  /** One call on the builder: the key and value handed to `append`. */
  datatype Request = Request(key: Option<string>, value: Option<string>)

  /** `appendCustomIdentity(Int, String?)`: the numeric code, `%01` and the
      value under `d_cid`. The value is built by a template, so a null value
      prints as "null" and the pair is never skipped. */
  function IntIdentity(code: int, value: Option<string>): (r: Request)
    ensures Accepted(r.key, r.value)
            == [Token(CustomIdParam, Decimal.ToDecimal(code) + CodeSeparator + Template(value))]
  {
    Request(Some(CustomIdParam), Some(Decimal.ToDecimal(code) + CodeSeparator + Template(value)))
  }

  /** `appendCustomIdentity(String, String)`: the textual code, `%01` and the
      value under `d_cid_ic`; never skipped, even for an empty code or value. */
  function StringIdentity(code: string, value: string): (r: Request)
    ensures Accepted(r.key, r.value) == [Token(CustomIdNameParam, code + CodeSeparator + value)]
  {
    Request(Some(CustomIdNameParam), Some(code + CodeSeparator + value))
  }

  /** A chain of `append` calls. */
  function Build(b: Builder, rs: seq<Request>): Builder
    decreases |rs|
  {
    if |rs| == 0 then b else Build(Append(b, rs[0].key, rs[0].value), rs[1..])
  }

  /** The parameters a chain of `append` calls contributes. */
  function AcceptedAll(rs: seq<Request>): seq<Token>
    decreases |rs|
  {
    if |rs| == 0 then [] else Accepted(rs[0].key, rs[0].value) + AcceptedAll(rs[1..])
  }

  lemma AcceptedAllCons(r: Request, rs: seq<Request>)
    ensures AcceptedAll([r] + rs) == Accepted(r.key, r.value) + AcceptedAll(rs)
  {
    assert ([r] + rs)[1..] == rs;
  }

  lemma {:induction false} AcceptedAllConcat(rs1: seq<Request>, rs2: seq<Request>)
    ensures AcceptedAll(rs1 + rs2) == AcceptedAll(rs1) + AcceptedAll(rs2)
    decreases |rs1|
  {
    if |rs1| > 0 {
      assert (rs1 + rs2)[1..] == rs1[1..] + rs2;
      AcceptedAllConcat(rs1[1..], rs2);
    } else {
      assert rs1 + rs2 == rs2;
    }
  }

  /** A whole chain of appends leaves the text equal to the join of every
      accepted parameter, in call order. */
  lemma {:induction false} BuildRepresents(b: Builder, ts: seq<Token>, rs: seq<Request>)
    requires Represents(b, ts)
    ensures Represents(Build(b, rs), ts + AcceptedAll(rs))
    decreases |rs|
  {
    if |rs| == 0 {
      assert ts + [] == ts;
    } else {
      var acc := Accepted(rs[0].key, rs[0].value);
      var b' := Append(b, rs[0].key, rs[0].value);
      AppendRepresents(b, ts, rs[0].key, rs[0].value);
      BuildRepresents(b', ts + acc, rs[1..]);
      assert Build(b, rs) == Build(b', rs[1..]);
      assert AcceptedAll(rs) == acc + AcceptedAll(rs[1..]);
      assert (ts + acc) + AcceptedAll(rs[1..]) == ts + (acc + AcceptedAll(rs[1..]));
    }
  }

  /** The text of a fresh builder after a chain of appends. */
  function BuiltText(rs: seq<Request>): (s: string)
    ensures s == Render(AcceptedAll(rs))
  {
    BuildRepresents(NewBuilder, [], rs);
    assert [] + AcceptedAll(rs) == AcceptedAll(rs);
    Build(NewBuilder, rs).text
  }

  // ---------------------------------------------------------------------------
  // Reading a query string back, as the tests do: split at '&' and drop the
  // trailing empty pieces.
  // ---------------------------------------------------------------------------

  /** Splits at every '&'; the pieces are the maximal '&'-free runs. */
  function SplitAmp(s: string): (parts: seq<string>)
    ensures |parts| >= 1
    decreases |s|
  {
    if |s| == 0 then [""]
    else
      var rest := SplitAmp(s[1..]);
      if s[0] == '&' then [""] + rest else [[s[0]] + rest[0]] + rest[1..]
  }

  function DropTrailingEmpty(ps: seq<string>): seq<string>
    decreases |ps|
  {
    if |ps| > 0 && ps[|ps| - 1] == "" then DropTrailingEmpty(ps[..|ps| - 1]) else ps
  }

  /** The parameters of a query string as the tests read them. */
  function Params(s: string): seq<string> {
    DropTrailingEmpty(SplitAmp(s))
  }

  /** The text of each parameter, in order. */
  function ParamTexts(ts: seq<Token>): (ps: seq<string>)
    ensures |ps| == |ts|
    ensures forall i :: 0 <= i < |ts| ==> ps[i] == Param(ts[i])
  {
    seq(|ts|, i requires 0 <= i < |ts| => Param(ts[i]))
  }

  lemma ParamTextsMapSeq(ts: seq<Token>)
    ensures ParamTexts(ts) == MapSeq(Param, ts)
  {
    forall i | 0 <= i < |ts|
      ensures ParamTexts(ts)[i] == MapSeq(Param, ts)[i]
    {
      MapSeqIndex(Param, ts, i);
    }
  }

  lemma ParamTextsConcat(a: seq<Token>, b: seq<Token>)
    ensures ParamTexts(a + b) == ParamTexts(a) + ParamTexts(b)
  {
    ParamTextsMapSeq(a);
    ParamTextsMapSeq(b);
    ParamTextsMapSeq(a + b);
    MapSeqConcat(Param, a, b);
  }

  /** Neither side of the parameter contains the separator. */
  predicate Clean(t: Token) {
    '&' !in t.key && '&' !in t.value
  }

  lemma {:induction false} SplitAround(a: string, b: string)
    ensures SplitAmp(a + "&" + b) == SplitAmp(a) + SplitAmp(b)
    decreases |a|
  {
    if |a| == 0 {
      assert a + "&" + b == "&" + b;
      assert ("&" + b)[1..] == b;
    } else {
      assert (a + "&" + b)[1..] == a[1..] + "&" + b;
      SplitAround(a[1..], b);
    }
  }

  lemma {:induction false} SplitPlain(a: string)
    requires '&' !in a
    ensures SplitAmp(a) == [a]
    decreases |a|
  {
    if |a| > 0 {
      SplitPlain(a[1..]);
      assert [a[0]] + a[1..] == a;
    }
  }

  lemma ParamClean(t: Token)
    requires Clean(t)
    ensures '&' !in Param(t) && |Param(t)| > 0
  {
    assert Param(t)[|t.key|] == '=';
    forall i | 0 <= i < |Param(t)|
      ensures Param(t)[i] != '&'
    {
      if i < |t.key| {
        assert Param(t)[i] == t.key[i];
      } else if i > |t.key| {
        assert Param(t)[i] == t.value[i - |t.key| - 1];
      }
    }
  }

  lemma {:induction false} SplitRender(ts: seq<Token>)
    requires |ts| > 0
    requires forall i :: 0 <= i < |ts| ==> Clean(ts[i])
    ensures SplitAmp(Render(ts)) == ParamTexts(ts)
    decreases |ts|
  {
    var last := ts[|ts| - 1];
    ParamClean(last);
    SplitPlain(Param(last));
    if |ts| > 1 {
      var init := ts[..|ts| - 1];
      SplitRender(init);
      SplitAround(Render(init), Param(last));
      assert ParamTexts(ts) == ParamTexts(init) + [Param(last)];
    }
  }

  /** Reading a rendered query string back yields exactly its parameters, in
      order, as long as no key or value contains '&': n parameters, no empty
      piece, so no leading, trailing or doubled separator. */
  lemma RenderThenSplit(ts: seq<Token>)
    requires forall i :: 0 <= i < |ts| ==> Clean(ts[i])
    ensures Params(Render(ts)) == ParamTexts(ts)
  {
    if |ts| > 0 {
      SplitRender(ts);
      ParamClean(ts[|ts| - 1]);
      var ps := ParamTexts(ts);
      assert ps[|ps| - 1] == Param(ts[|ts| - 1]) != "";
    }
  }

  /** Number of '&' in a string. */
  function Separators(s: string): nat
    decreases |s|
  {
    if |s| == 0 then 0 else (if s[0] == '&' then 1 else 0) + Separators(s[1..])
  }

  lemma {:induction false} SeparatorsConcat(a: string, b: string)
    ensures Separators(a + b) == Separators(a) + Separators(b)
    decreases |a|
  {
    if |a| == 0 {
      assert a + b == b;
    } else {
      assert (a + b)[1..] == a[1..] + b;
      SeparatorsConcat(a[1..], b);
    }
  }

  lemma {:induction false} NoSeparators(a: string)
    requires '&' !in a
    ensures Separators(a) == 0
    decreases |a|
  {
    if |a| > 0 {
      NoSeparators(a[1..]);
    }
  }

  /** n clean parameters are joined by exactly n - 1 separators, and the text
      neither starts nor ends with one. */
  lemma {:induction false} RenderSeparators(ts: seq<Token>)
    requires |ts| > 0
    requires forall i :: 0 <= i < |ts| ==> Clean(ts[i])
    ensures Separators(Render(ts)) == |ts| - 1
    ensures Render(ts)[0] != '&'
    ensures Render(ts)[|Render(ts)| - 1] != '&'
    decreases |ts|
  {
    var last := ts[|ts| - 1];
    ParamClean(last);
    NoSeparators(Param(last));
    if |ts| > 1 {
      var init := ts[..|ts| - 1];
      RenderSeparators(init);
      SeparatorsConcat(Render(init), "&" + Param(last));
      SeparatorsConcat("&", Param(last));
      assert Render(init) + "&" + Param(last) == Render(init) + ("&" + Param(last));
    }
  }
}
