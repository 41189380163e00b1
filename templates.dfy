// The template engine behind `awsTemplates`, `azureTemplates` and `gcpTemplates`.
// Every template in src/utils/terraformTemplates.ts is a template literal over a sparse
// override record; here a template is the list of its pieces, and `Render` evaluates
// them with JavaScript's rules for `||`, `===`, `?.`, `split`, `trim`, `map` and `join`.
module Templates {
  import opened Wrappers
  import Seqs
  import JsStrings

  /** The override record a template receives (`Record<string, string>`). */
  type Params = map<string, string>

  /** `params.key`: absent keys read as `undefined`. */
  function Lookup(p: Params, key: string): Option<string>
  {
    if key in p then Some(p[key]) else None
  }

  /** JavaScript truthiness of a string that may be `undefined`. */
  predicate Truthy(v: Option<string>)
  {
    v.Some? && v.value != ""
  }

  /** `v || fallback` on a string. */
  function OrElse(v: Option<string>, fallback: string): string
  {
    if Truthy(v) then v.value else fallback
  }

  /** `${v}`: an `undefined` value prints as the text `undefined`. */
  function Interpolate(v: Option<string>): string
  {
    if v.Some? then v.value else "undefined"
  }

  /** `` `"${t.trim()}"` `` */
  function Quote(item: string): string
  {
    "\"" + JsStrings.Trim(item) + "\""
  }

  /** `v?.split(',').map(quote).join(', ')`, `undefined` when `v` is. */
  function QuotedItems(v: Option<string>): Option<string>
  {
    if v.None? then None
    else Some(JsStrings.Join(Seqs.Map(JsStrings.Split(v.value, ','), Quote), ", "))
  }

  /** `v?.split(',') || defaults`: an array is always truthy, so the defaults are used
      only when the value is absent. */
  function ListItems(v: Option<string>, defaults: seq<string>): seq<string>
  {
    if v.Some? then JsStrings.Split(v.value, ',') else defaults
  }

  /** A piece of the inner template that `map` applies to each list item. */
  datatype ItemPiece =
    | Text(text: string)   // literal text
    | Trimmed              // `${item.trim()}`
    | Position             // `${index}`
    | Ordinal              // `${index + 1}`

  /** A piece of a template literal. */
  datatype Segment =
    | Lit(text: string)                                                     // literal text
    | Or(key: string, fallback: string)                                     // `${params.key || 'fallback'}`
    | Raw(key: string)                                                      // `${params.key}`
    | Choice(key: string, expected: string, whenEqual: string, otherwise: string)
                                                                            // `${params.key === 'e' ? 'a' : 'b'}`
    | QuotedList(key: string, fallback: string)                             // `${params.key?.split(',').map(quote).join(', ') || 'fallback'}`
    | Repeat(key: string, defaults: seq<string>, item: seq<ItemPiece>)      // `${(params.key?.split(',') || defaults).map(item).join('')}`

  type Template = seq<Segment>

  /** `${index + 1}`: the 1-based number of the item at position `index`. */
  function OrdinalText(index: nat): string
  {
    JsStrings.NatToString(index + 1)
  }

  function RenderPiece(piece: ItemPiece, item: string, index: nat): string
  {
    match piece
    case Text(t) => t
    case Trimmed => JsStrings.Trim(item)
    case Position => JsStrings.NatToString(index)
    case Ordinal => OrdinalText(index)
  }

  /** The inner template applied to one item at position `index`. */
  function RenderItem(pieces: seq<ItemPiece>, item: string, index: nat): string
  {
    if |pieces| == 0 then ""
    else RenderPiece(pieces[0], item, index) + RenderItem(pieces[1..], item, index)
  }

  /** `items.map((item, index) => ...).join('')`. */
  function RenderRepeat(items: seq<string>, pieces: seq<ItemPiece>): string
  {
    if |items| == 0 then ""
    else RenderRepeat(items[..|items| - 1], pieces) + RenderItem(pieces, items[|items| - 1], |items| - 1)
  }

  function RenderSegment(s: Segment, p: Params): string
  {
    match s
    case Lit(t) => t
    case Or(k, f) => OrElse(Lookup(p, k), f)
    case Raw(k) => Interpolate(Lookup(p, k))
    case Choice(k, e, a, b) => if Lookup(p, k) == Some(e) then a else b
    case QuotedList(k, f) =>
      var q := QuotedItems(Lookup(p, k));
      if q.Some? && q.value != "" then q.value else f
    case Repeat(k, d, item) => RenderRepeat(ListItems(Lookup(p, k), d), item)
  }

  /** The text a template produces for an override record. */
  function Render(t: Template, p: Params): string
  {
    if |t| == 0 then "" else RenderSegment(t[0], p) + Render(t[1..], p)
  }

  /** The override keys a segment reads. */
  function SegmentKeys(s: Segment): set<string>
  {
    match s
    case Lit(_) => {}
    case Or(k, _) => {k}
    case Raw(k) => {k}
    case Choice(k, _, _, _) => {k}
    case QuotedList(k, _) => {k}
    case Repeat(k, _, _) => {k}
  }

  /** The override keys a template reads. */
  function Keys(t: Template): set<string>
  {
    if |t| == 0 then {} else SegmentKeys(t[0]) + Keys(t[1..])
  }

  // ---------------------------------------------------------------------------------
  // Facts about the engine, for every template.

  /** Rendering distributes over concatenation of templates. */
  lemma {:induction false} RenderConcat(a: Template, b: Template, p: Params)
    ensures Render(a + b, p) == Render(a, p) + Render(b, p)
    decreases |a|
  {
    if |a| > 0 {
      assert (a + b)[1..] == a[1..] + b;
      RenderConcat(a[1..], b, p);
    } else {
      assert a + b == b;
    }
  }

  lemma Render3(a: Segment, b: Segment, c: Segment, p: Params)
    ensures Render([a, b, c], p) == RenderSegment(a, p) + RenderSegment(b, p) + RenderSegment(c, p)
  {
    assert [c][1..] == [];
    assert Render([c], p) == RenderSegment(c, p);
    assert [b, c][1..] == [c];
    assert Render([b, c], p) == RenderSegment(b, p) + Render([c], p);
    assert [a, b, c][1..] == [b, c];
  }

  /** The rendering of three consecutive segments occurs, in one piece, in the output. */
  lemma RenderWindow(t: Template, i: nat, p: Params)
    requires 0 < i < |t| - 1
    ensures JsStrings.Contains(Render(t, p),
              RenderSegment(t[i - 1], p) + RenderSegment(t[i], p) + RenderSegment(t[i + 1], p))
  {
    var pre, w, post := t[..i - 1], t[i - 1..i + 2], t[i + 2..];
    assert w == [t[i - 1], t[i], t[i + 1]];
    assert t == pre + w + post;
    RenderConcat(pre + w, post, p);
    RenderConcat(pre, w, p);
    Render3(t[i - 1], t[i], t[i + 1], p);
    JsStrings.ContainsMiddle(Render(pre, p), Render(w, p), Render(post, p));
  }

  /** The rendering of any one segment occurs in the output. */
  lemma {:induction false} RenderAt(t: Template, i: nat, p: Params)
    requires i < |t|
    ensures JsStrings.Contains(Render(t, p), RenderSegment(t[i], p))
    decreases i
  {
    hide RenderSegment;
    if i == 0 {
      JsStrings.ContainsMiddle("", RenderSegment(t[0], p), Render(t[1..], p));
      assert "" + RenderSegment(t[0], p) + Render(t[1..], p) == Render(t, p);
    } else {
      RenderAt(t[1..], i - 1, p);
      JsStrings.ContainsWiden(RenderSegment(t[0], p), Render(t[1..], p), "", RenderSegment(t[i], p));
      assert RenderSegment(t[0], p) + Render(t[1..], p) + "" == Render(t, p);
    }
  }

  /** A hole between two literal segments renders, with its surrounding text, as one
      piece of the output. */
  lemma LineAt(t: Template, i: nat, p: Params)
    requires 0 < i < |t| - 1 && t[i - 1].Lit? && t[i + 1].Lit?
    ensures JsStrings.Contains(Render(t, p), t[i - 1].text + RenderSegment(t[i], p) + t[i + 1].text)
  {
    RenderWindow(t, i, p);
  }

  /** `${params.k || 'f'}`: the value when it is non-empty, the fallback when it is `""`
      or missing. */
  lemma OrLine(t: Template, i: nat, p: Params)
    requires 0 < i < |t| - 1 && t[i - 1].Lit? && t[i].Or? && t[i + 1].Lit?
    ensures JsStrings.Contains(Render(t, p),
              t[i - 1].text + (if t[i].key in p && p[t[i].key] != "" then p[t[i].key] else t[i].fallback)
              + t[i + 1].text)
  {
    LineAt(t, i, p);
  }

  /** `${params.k}`: the value verbatim, or the text `undefined` when it is missing. */
  lemma RawLine(t: Template, i: nat, p: Params)
    requires 0 < i < |t| - 1 && t[i - 1].Lit? && t[i].Raw? && t[i + 1].Lit?
    ensures JsStrings.Contains(Render(t, p),
              t[i - 1].text + (if t[i].key in p then p[t[i].key] else "undefined") + t[i + 1].text)
  {
    LineAt(t, i, p);
  }

  /** `${params.k === 'e' ? 'a' : 'b'}`: `a` exactly when the value is the text `e`. */
  lemma ChoiceLine(t: Template, i: nat, p: Params)
    requires 0 < i < |t| - 1 && t[i - 1].Lit? && t[i].Choice? && t[i + 1].Lit?
    ensures JsStrings.Contains(Render(t, p),
              t[i - 1].text + (if t[i].key in p && p[t[i].key] == t[i].expected then t[i].whenEqual else t[i].otherwise)
              + t[i + 1].text)
  {
    LineAt(t, i, p);
  }

  /** A quoted list: the trimmed, quoted items of the value joined by `, ` when the key is
      present (even as `""`), the fallback when it is missing. */
  lemma QuotedListLine(t: Template, i: nat, p: Params)
    requires 0 < i < |t| - 1 && t[i - 1].Lit? && t[i].QuotedList? && t[i + 1].Lit?
    ensures JsStrings.Contains(Render(t, p),
              t[i - 1].text
              + (if t[i].key in p then JsStrings.Join(Seqs.Map(JsStrings.Split(p[t[i].key], ','), Quote), ", ")
                 else t[i].fallback)
              + t[i + 1].text)
  {
    LineAt(t, i, p);
    QuotedListFallsBackWhenAbsent(t[i].key, t[i].fallback, p);
  }

  /** The empty value is a one-item list of the empty text. */
  lemma QuotedEmpty()
    ensures JsStrings.Join(Seqs.Map(JsStrings.Split("", ','), Quote), ", ") == "\"\""
  {
    QuoteEmpty();
    hide Quote;
    assert JsStrings.Split("", ',') == [""];
    assert Seqs.Map([""], Quote) == [Quote("")];
  }

  lemma QuoteEmpty()
    ensures Quote("") == "\"\""
  {
    hide JsStrings.SpaceAround;
    JsStrings.TrimClean("");
  }

  lemma {:induction false} ItemConcat(a: seq<ItemPiece>, b: seq<ItemPiece>, item: string, index: nat)
    ensures RenderItem(a + b, item, index) == RenderItem(a, item, index) + RenderItem(b, item, index)
    decreases |a|
  {
    hide RenderPiece;
    if |a| > 0 {
      assert (a + b)[1..] == a[1..] + b;
      ItemConcat(a[1..], b, item, index);
    } else {
      assert a + b == b;
    }
  }

  lemma Item3(a: ItemPiece, b: ItemPiece, c: ItemPiece, item: string, index: nat)
    ensures RenderItem([a, b, c], item, index)
         == RenderPiece(a, item, index) + RenderPiece(b, item, index) + RenderPiece(c, item, index)
  {
    hide RenderPiece;
    assert [c][1..] == [];
    assert RenderItem([c], item, index) == RenderPiece(c, item, index);
    assert [b, c][1..] == [c];
    assert RenderItem([b, c], item, index) == RenderPiece(b, item, index) + RenderItem([c], item, index);
    assert [a, b, c][1..] == [b, c];
  }

  /** A hole of the inner template between two text pieces renders, with that text, as one
      piece of the block. */
  lemma ItemLineAt(pieces: seq<ItemPiece>, i: nat, item: string, index: nat)
    requires 0 < i < |pieces| - 1 && pieces[i - 1].Text? && pieces[i + 1].Text?
    ensures JsStrings.Contains(RenderItem(pieces, item, index),
              pieces[i - 1].text + RenderPiece(pieces[i], item, index) + pieces[i + 1].text)
  {
    assert RenderPiece(pieces[i - 1], item, index) == pieces[i - 1].text;
    assert RenderPiece(pieces[i + 1], item, index) == pieces[i + 1].text;
    hide RenderPiece;
    var pre, w, post := pieces[..i - 1], pieces[i - 1..i + 2], pieces[i + 2..];
    assert w == [pieces[i - 1], pieces[i], pieces[i + 1]];
    assert pieces == pre + w + post;
    ItemConcat(pre + w, post, item, index);
    ItemConcat(pre, w, item, index);
    Item3(pieces[i - 1], pieces[i], pieces[i + 1], item, index);
    JsStrings.ContainsMiddle(RenderItem(pre, item, index), RenderItem(w, item, index), RenderItem(post, item, index));
  }

  /** Every block of a repeated segment occurs in the output. */
  lemma RepeatBlocks(t: Template, i: nat, p: Params)
    requires i < |t| && t[i].Repeat?
    ensures JsStrings.Contains(Render(t, p),
              Seqs.Flatten(ItemBlocks(ListItems(Lookup(p, t[i].key), t[i].defaults), t[i].item)))
  {
    RenderAt(t, i, p);
    RenderRepeatBlocks(ListItems(Lookup(p, t[i].key), t[i].defaults), t[i].item);
  }

  /** Each template is a function of the keys it reads: records that agree on those keys
      render the same text. */
  lemma {:induction false} RenderLocal(t: Template, p: Params, q: Params)
    requires forall k :: k in Keys(t) ==> Lookup(p, k) == Lookup(q, k)
    ensures Render(t, p) == Render(t, q)
    decreases |t|
  {
    if |t| > 0 {
      RenderLocal(t[1..], p, q);
    }
  }

  /** A quoted item is never empty, so neither is a quoted list of at least one item. */
  lemma {:induction false} QuotedJoinNonEmpty(items: seq<string>)
    requires |items| >= 1
    ensures |JsStrings.Join(Seqs.Map(items, Quote), ", ")| >= 2
    decreases |items|
  {
    var m := Seqs.Map(items, Quote);
    if |items| > 1 {
      assert Seqs.Map(items, Quote)[1..] == Seqs.Map(items[1..], Quote);
      QuotedJoinNonEmpty(items[1..]);
    }
  }

  /** A quoted list falls back exactly when the key is absent: even `""` renders as the
      one-item list `""`, never as the fallback. */
  lemma QuotedListFallsBackWhenAbsent(k: string, f: string, p: Params)
    ensures k !in p ==> RenderSegment(QuotedList(k, f), p) == f
    ensures k in p ==> RenderSegment(QuotedList(k, f), p)
                       == JsStrings.Join(Seqs.Map(JsStrings.Split(p[k], ','), Quote), ", ")
  {
    if k in p {
      QuotedJoinNonEmpty(JsStrings.Split(p[k], ','));
    }
  }

  /** A repeated block is emitted once per list item: one more than the commas of the value,
      or once per default item when the key is absent. */
  lemma {:induction false} ListItemsCount(v: Option<string>, defaults: seq<string>)
    ensures |ListItems(v, defaults)| == if v.Some? then JsStrings.CountChar(v.value, ',') + 1 else |defaults|
  {
    if v.Some? {
      JsStrings.SplitLength(v.value, ',');
    }
  }

  /** The blocks `map` produces, one per item, in order. */
  function ItemBlocks(items: seq<string>, pieces: seq<ItemPiece>): (r: seq<string>)
    ensures |r| == |items|
    ensures forall k :: 0 <= k < |items| ==> r[k] == RenderItem(pieces, items[k], k)
  {
    if |items| == 0 then []
    else
      var init := ItemBlocks(items[..|items| - 1], pieces);
      assert forall k :: 0 <= k < |items| - 1 ==> items[..|items| - 1][k] == items[k];
      init + [RenderItem(pieces, items[|items| - 1], |items| - 1)]
  }

  /** The repeated text is the concatenation of one rendered block per item, in order. */
  lemma {:induction false} RenderRepeatBlocks(items: seq<string>, pieces: seq<ItemPiece>)
    ensures RenderRepeat(items, pieces) == Seqs.Flatten(ItemBlocks(items, pieces))
    decreases |items|
  {
    if |items| > 0 {
      var n := |items| - 1;
      RenderRepeatBlocks(items[..n], pieces);
      FlattenSnoc(ItemBlocks(items[..n], pieces), RenderItem(pieces, items[n], n));
    }
  }

  lemma {:induction false} FlattenSnoc(ss: seq<string>, s: string)
    ensures Seqs.Flatten(ss + [s]) == Seqs.Flatten(ss) + s
    decreases |ss|
  {
    if |ss| == 0 {
      assert ss + [s] == [s];
      assert [s][1..] == [];
    } else {
      assert (ss + [s])[1..] == ss[1..] + [s];
      FlattenSnoc(ss[1..], s);
    }
  }

  /** A key every template segment reads only through `||` (or compares with `===` to a
      non-empty text) cannot tell `""` from a missing value. */
  predicate ReadsOnlyWithFallback(t: Template, k: string)
  {
    forall i :: 0 <= i < |t| && k in SegmentKeys(t[i]) ==>
      t[i].Or? || (t[i].Choice? && t[i].expected != "")
  }

  /** Under the `||` rule an empty override is the same as no override. */
  lemma {:induction false} EmptyIsAbsent(t: Template, p: Params, k: string)
    requires ReadsOnlyWithFallback(t, k)
    ensures Render(t, p[k := ""]) == Render(t, p - {k})
    decreases |t|
  {
    if |t| > 0 {
      assert ReadsOnlyWithFallback(t[1..], k) by {
        forall i | 0 <= i < |t[1..]| && k in SegmentKeys(t[1..][i])
          ensures t[1..][i].Or? || (t[1..][i].Choice? && t[1..][i].expected != "")
        {
          assert t[1..][i] == t[i + 1];
        }
      }
      EmptyIsAbsent(t[1..], p, k);
      var q1, q2 := p[k := ""], p - {k};
      assert RenderSegment(t[0], q1) == RenderSegment(t[0], q2) by {
        forall k' | k' in SegmentKeys(t[0]) && k' != k ensures Lookup(q1, k') == Lookup(q2, k') {}
      }
    }
  }

  /** A key every segment reads as `params.k || v` renders the same whether it is set to
      `v` or left out. */
  predicate FallsBackTo(t: Template, k: string, v: string)
  {
    forall i :: 0 <= i < |t| && k in SegmentKeys(t[i]) ==> t[i] == Or(k, v)
  }

  lemma {:induction false} FallbackValueIsAbsent(t: Template, p: Params, k: string, v: string)
    requires FallsBackTo(t, k, v)
    ensures Render(t, p[k := v]) == Render(t, p - {k})
    decreases |t|
  {
    if |t| > 0 {
      assert FallsBackTo(t[1..], k, v) by {
        forall i | 0 <= i < |t[1..]| && k in SegmentKeys(t[1..][i]) ensures t[1..][i] == Or(k, v) {
          assert t[1..][i] == t[i + 1];
        }
      }
      FallbackValueIsAbsent(t[1..], p, k, v);
    }
  }
}
