/**
 * The log redactor (`HTTPigeon::LogRedactor`): masks the values of chosen hash keys,
 * compared without regard to case, anywhere inside nested arrays and hashes, and rewrites
 * strings found in arrays through a list of pattern filters.
 *
 * Regular-expression substitution (`gsub`) is not modelled: it is the `gsub` function of
 * the `Context`, taking the text, the pattern and the replacement. The mask
 * (`HTTPigeon.redactor_string`) is read from the context too.
 */
module Redaction {
  import opened Wrappers
  import opened RubyText

  /** The mask `HTTPigeon::Configuration` starts with. */
  const DEFAULT_REDACTOR_STRING: string := "[FILTERED]"

  /** `text.gsub(pattern, replacement)`, with the pattern left abstract. */
  type Gsub = (string, string, string) -> string

  /** What the redactor reads from its surroundings: the mask and regex substitution. */
  datatype Context = Context(redactorString: string, gsub: Gsub)

  /** The context of an unconfigured program: the default mask and the given substitution. */
  function DefaultContext(gsub: Gsub): Context {
    Context(DEFAULT_REDACTOR_STRING, gsub)
  }

  /** `HTTPigeon::Filter`: a pattern and either a prefix to keep before the mask or a replacement. */
  datatype Filter = Filter(pattern: string, subPrefix: Option<string>, replacement: string)

  /** A hash key: a Symbol or a String; `to_s` gives its name either way. */
  datatype Key = SymbolKey(name: string) | StringKey(name: string)

  /** The values a log payload is made of; anything else is a `Scalar`, left alone. */
  datatype Data =
    | Arr(items: seq<Data>)
    | Text(text: string)
    | Hash(entries: seq<Entry>)
    | Scalar(literal: string)

  datatype Entry = Entry(key: Key, value: Data)

  datatype LogRedactor = LogRedactor(hashFilterKeys: seq<string>, stringFilters: seq<Filter>)

  /** `LogRedactor.new`: missing lists are empty; filter keys become downcased strings. */
  function NewLogRedactor(hashFilterKeys: Option<seq<Key>>, stringFilters: Option<seq<Filter>>): (r: LogRedactor)
    ensures var keys := hashFilterKeys.GetOr([]);
            |r.hashFilterKeys| == |keys| && forall i :: 0 <= i < |keys| ==> r.hashFilterKeys[i] == Downcase(keys[i].name)
    ensures r.stringFilters == stringFilters.GetOr([])
  {
    var keys := hashFilterKeys.GetOr([]);
    LogRedactor(seq(|keys|, i requires 0 <= i < |keys| => Downcase(keys[i].name)), stringFilters.GetOr([]))
  }

  /** Whether a hash entry's value is masked: its key's name, downcased, is a filter key. */
  predicate Masks(r: LogRedactor, k: Key) {
    Downcase(k.name) in r.hashFilterKeys
  }

  /** The replacement one filter substitutes: the present prefix followed by the mask, or its own. */
  function Replacement(f: Filter, redactorString: string): (s: string)
    ensures f.subPrefix.Some? && Present(f.subPrefix.value) ==> s == f.subPrefix.value + redactorString
    ensures !(f.subPrefix.Some? && Present(f.subPrefix.value)) ==> s == f.replacement
  {
    if f.subPrefix.Some? && Present(f.subPrefix.value) then f.subPrefix.value + redactorString else f.replacement
  }

  /** The string after every filter has been applied in turn, first to last. */
  function ApplyFilters(filters: seq<Filter>, data: string, ctx: Context): (out: string)
    ensures |filters| == 0 ==> out == data
    ensures |filters| == 1 ==> out == ctx.gsub(data, filters[0].pattern, Replacement(filters[0], ctx.redactorString))
    decreases |filters|
  {
    if |filters| == 0 then data
    else ApplyFilters(filters[1..], ctx.gsub(data, filters[0].pattern, Replacement(filters[0], ctx.redactorString)), ctx)
  }

  /** Applying two lists of filters one after the other is applying their concatenation. */
  lemma {:induction false} ApplyFiltersConcat(f1: seq<Filter>, f2: seq<Filter>, data: string, ctx: Context)
    ensures ApplyFilters(f1 + f2, data, ctx) == ApplyFilters(f2, ApplyFilters(f1, data, ctx), ctx)
    decreases |f1|
  {
    if |f1| == 0 {
      assert f1 + f2 == f2;
    } else {
      assert (f1 + f2)[0] == f1[0];
      assert (f1 + f2)[1..] == f1[1..] + f2;
      ApplyFiltersConcat(f1[1..], f2, ctx.gsub(data, f1[0].pattern, Replacement(f1[0], ctx.redactorString)), ctx);
    }
  }

  /** Filtering with one filter more at the end is one more substitution on the result. */
  lemma ApplyFiltersSnoc(filters: seq<Filter>, f: Filter, data: string, ctx: Context)
    ensures ApplyFilters(filters + [f], data, ctx)
            == ctx.gsub(ApplyFilters(filters, data, ctx), f.pattern, Replacement(f, ctx.redactorString))
  {
    ApplyFiltersConcat(filters, [f], data, ctx);
  }

  /** `redact_string`: each filter in turn rewrites the text; without filters it is unchanged. */
  method RedactString(r: LogRedactor, data: string, ctx: Context) returns (out: string)
    ensures out == ApplyFilters(r.stringFilters, data, ctx)
    ensures r.stringFilters == [] ==> out == data
  {
    out := data;
    var i := 0;
    while i < |r.stringFilters|
      invariant 0 <= i <= |r.stringFilters|
      invariant out == ApplyFilters(r.stringFilters[..i], data, ctx)
    {
      var filter := r.stringFilters[i];
      if filter.subPrefix.Some? && Present(filter.subPrefix.value) {
        out := ctx.gsub(out, filter.pattern, filter.subPrefix.value + ctx.redactorString);
      } else {
        out := ctx.gsub(out, filter.pattern, filter.replacement);
      }
      ApplyFiltersSnoc(r.stringFilters[..i], filter, data, ctx);
      assert r.stringFilters[..i + 1] == r.stringFilters[..i] + [filter];
      i := i + 1;
    }
    assert r.stringFilters[..i] == r.stringFilters;
  }

  /**
   * `redact`: arrays element by element, strings through the filters, hashes by key;
   * anything else as it is.
   */
  function Redact(r: LogRedactor, ctx: Context, d: Data): (out: Data)
    ensures out.Arr? == d.Arr? && out.Text? == d.Text? && out.Hash? == d.Hash? && out.Scalar? == d.Scalar?
    ensures d.Arr? ==> |out.items| == |d.items|
    ensures d.Hash? ==> |out.entries| == |d.entries|
    ensures d.Scalar? ==> out == d
    ensures d.Text? ==> out == Text(ApplyFilters(r.stringFilters, d.text, ctx))
    decreases d, 1
  {
    match d
    case Arr(items) => Arr(RedactItems(r, ctx, d))
    case Text(s) => Text(ApplyFilters(r.stringFilters, s, ctx))
    case Hash(_) => Hash(RedactHash(r, ctx, d))
    case Scalar(_) => d
  }

  /** The elements of the array `a`, each redacted on its own. */
  function RedactItems(r: LogRedactor, ctx: Context, a: Data): (items: seq<Data>)
    requires a.Arr?
    ensures |items| == |a.items|
    ensures forall i :: 0 <= i < |items| ==> items[i] == Redact(r, ctx, a.items[i])
    decreases a, 0
  {
    seq(|a.items|, i requires 0 <= i < |a.items| => Redact(r, ctx, a.items[i]))
  }

  /**
   * `redact_hash`: a masked key's value becomes the mask and is not looked into; otherwise
   * a hash is redacted by key again, an array element by element, and anything else,
   * strings included, is kept.
   */
  function RedactHash(r: LogRedactor, ctx: Context, h: Data): (entries: seq<Entry>)
    requires h.Hash?
    ensures |entries| == |h.entries|
    ensures forall i :: 0 <= i < |entries| ==> entries[i].key == h.entries[i].key
    ensures forall i :: 0 <= i < |entries| && Masks(r, h.entries[i].key) ==> entries[i].value == Text(ctx.redactorString)
    decreases h, 0
  {
    seq(|h.entries|, i requires 0 <= i < |h.entries| =>
      var e := h.entries[i];
      assert e.value < e;
      Entry(e.key, RedactEntryValue(r, ctx, h, i)))
  }

  /** The new value of the `i`th entry of `h`. */
  function RedactEntryValue(r: LogRedactor, ctx: Context, h: Data, i: int): (v: Data)
    requires h.Hash? && 0 <= i < |h.entries|
    ensures Masks(r, h.entries[i].key) ==> v == Text(ctx.redactorString)
    ensures !Masks(r, h.entries[i].key) ==> v.Arr? == h.entries[i].value.Arr? && v.Hash? == h.entries[i].value.Hash?
    ensures !Masks(r, h.entries[i].key) && (h.entries[i].value.Text? || h.entries[i].value.Scalar?) ==> v == h.entries[i].value
    decreases h, 0, i
  {
    var e := h.entries[i];
    var v := e.value;
    assert v < h;
    if Masks(r, e.key) then Text(ctx.redactorString)
    else if v.Hash? then Hash(RedactHash(r, ctx, v))
    else if v.Arr? then Arr(RedactItems(r, ctx, v))
    else v
  }

  /**
   * An entry whose key is not masked is handled by the type of its value: a hash is
   * redacted by key, an array element by element, and a string or anything else is kept.
   */
  lemma UnmaskedEntry(r: LogRedactor, ctx: Context, h: Data, i: int)
    requires h.Hash? && 0 <= i < |h.entries| && !Masks(r, h.entries[i].key)
    ensures var v := h.entries[i].value;
            var w := RedactHash(r, ctx, h)[i].value;
            && (v.Hash? ==> w == Hash(RedactHash(r, ctx, v)))
            && (v.Arr? ==> w.Arr? && |w.items| == |v.items| && forall j :: 0 <= j < |v.items| ==> w.items[j] == Redact(r, ctx, v.items[j]))
            && (v.Text? || v.Scalar? ==> w == v)
  {
  }

  /** An array keeps its length, and each element is redacted on its own. */
  lemma RedactArray(r: LogRedactor, ctx: Context, items: seq<Data>)
    ensures var d := Redact(r, ctx, Arr(items));
            d.Arr? && |d.items| == |items| && forall i :: 0 <= i < |items| ==> d.items[i] == Redact(r, ctx, items[i])
  {
  }

  /** Values other than arrays, strings and hashes come back unchanged. */
  lemma RedactScalar(r: LogRedactor, ctx: Context, literal: string)
    ensures Redact(r, ctx, Scalar(literal)) == Scalar(literal)
  {
  }

  /**
   * Masking ignores case and whether the key is a Symbol or a String: filter key
   * `"authorization"` masks `:Authorization` and `"AUTHORIZATION"` alike.
   */
  lemma MaskIgnoresCaseAndKind(keys: Option<seq<Key>>, filters: Option<seq<Filter>>, k: Key)
    ensures var r := NewLogRedactor(keys, filters);
            && (Masks(r, k) <==> exists j :: 0 <= j < |keys.GetOr([])| && Downcase(keys.GetOr([])[j].name) == Downcase(k.name))
            && Masks(r, SymbolKey(k.name)) == Masks(r, StringKey(Downcase(k.name)))
  {
    var r := NewLogRedactor(keys, filters);
    DowncaseIdempotent(k.name);
    if Masks(r, k) {
      var j :| 0 <= j < |r.hashFilterKeys| && r.hashFilterKeys[j] == Downcase(k.name);
      assert Downcase(keys.GetOr([])[j].name) == Downcase(k.name);
    }
  }

  /** With no string filters, redacting twice is redacting once. */
  lemma {:induction false} RedactIdempotent(r: LogRedactor, ctx: Context, d: Data)
    requires r.stringFilters == []
    ensures Redact(r, ctx, Redact(r, ctx, d)) == Redact(r, ctx, d)
    decreases d, 1
  {
    match d
    case Arr(items) =>
      RedactItemsIdempotent(r, ctx, d);
    case Text(_) =>
    case Hash(_) =>
      RedactHashIdempotent(r, ctx, d);
    case Scalar(_) =>
  }

  lemma {:induction false} RedactItemsIdempotent(r: LogRedactor, ctx: Context, a: Data)
    requires a.Arr? && r.stringFilters == []
    ensures RedactItems(r, ctx, Arr(RedactItems(r, ctx, a))) == RedactItems(r, ctx, a)
    decreases a, 0
  {
    var once := RedactItems(r, ctx, a);
    forall i | 0 <= i < |once|
      ensures Redact(r, ctx, once[i]) == once[i]
    {
      RedactIdempotent(r, ctx, a.items[i]);
    }
  }

  lemma {:induction false} RedactHashIdempotent(r: LogRedactor, ctx: Context, h: Data)
    requires h.Hash? && r.stringFilters == []
    ensures RedactHash(r, ctx, Hash(RedactHash(r, ctx, h))) == RedactHash(r, ctx, h)
    decreases h, 0
  {
    var once := RedactHash(r, ctx, h);
    forall i | 0 <= i < |once|
      ensures RedactEntryValue(r, ctx, Hash(once), i) == once[i].value
    {
      var v := h.entries[i].value;
      assert v < h;
      assert once[i] == Entry(h.entries[i].key, RedactEntryValue(r, ctx, h, i));
      if !Masks(r, h.entries[i].key) {
        if v.Hash? {
          RedactHashIdempotent(r, ctx, v);
        } else if v.Arr? {
          RedactItemsIdempotent(r, ctx, v);
        }
      }
    }
  }

  /** With no filter keys and no string filters, redaction changes nothing. */
  lemma {:induction false} RedactNothingToFilter(r: LogRedactor, ctx: Context, d: Data)
    requires r.hashFilterKeys == [] && r.stringFilters == []
    ensures Redact(r, ctx, d) == d
    decreases d, 1
  {
    match d
    case Arr(items) =>
      forall i | 0 <= i < |items|
        ensures Redact(r, ctx, items[i]) == items[i]
      {
        RedactNothingToFilter(r, ctx, items[i]);
      }
      assert RedactItems(r, ctx, d) == items;
    case Text(_) =>
    case Hash(_) =>
      RedactHashNothingToFilter(r, ctx, d);
    case Scalar(_) =>
  }

  lemma {:induction false} RedactHashNothingToFilter(r: LogRedactor, ctx: Context, h: Data)
    requires h.Hash? && r.hashFilterKeys == [] && r.stringFilters == []
    ensures RedactHash(r, ctx, h) == h.entries
    decreases h, 0
  {
    forall i | 0 <= i < |h.entries|
      ensures RedactEntryValue(r, ctx, h, i) == h.entries[i].value
    {
      var v := h.entries[i].value;
      assert v < h;
      if v.Hash? {
        RedactHashNothingToFilter(r, ctx, v);
      } else if v.Arr? {
        RedactNothingToFilter(r, ctx, v);
      }
    }
  }

  /** Under the default mask, a masked key's value is logged as "[FILTERED]", whatever it was. */
  lemma DefaultMaskIsFiltered(r: LogRedactor, gsub: Gsub, k: Key, v: Data)
    requires Masks(r, k)
    ensures Redact(r, DefaultContext(gsub), Hash([Entry(k, v)])) == Hash([Entry(k, Text("[FILTERED]"))])
  {
    var out := RedactHash(r, DefaultContext(gsub), Hash([Entry(k, v)]));
    assert out[0] == Entry(k, Text("[FILTERED]"));
  }
}
