/**
  Which inputs every engine of the policy gets: for engines that write down what they are given, the
  whole result is spelled out, without the functions that wire them together.
 */
module PolicyTrace {
  import opened PolicyRuntime

  const KEY := 1000001
  const VALUE := 1000002

  /**
    Engines that append what they receive to what they are to change: a layer its number, its tables and
    its other inputs in the order of its parameters. Style rows, prompt rows and tables are any words.
   */
  ghost predicate Tracing(e: Engines) {
    TracingTower(e) && TracingLanguage(e) && TracingMemory(e) && TracingActions(e) && TracingEnds(e)
  }

  ghost predicate TracingTower(e: Engines) {
    && (forall x: Words :: e.stem(x) == x)
    && (forall i: nat, x: Words :: e.vision(i, x) == x + [i])
    && (forall x: Words :: e.tail(x) == x)
  }

  ghost predicate TracingLanguage(e: Engines) {
    forall i: nat, x: Words, m: Words, c: Words, s: Words :: e.hidden(i, x, m, c, s) == x + [i] + m + c + s
  }

  ghost predicate TracingMemory(e: Engines) {
    && (forall i: nat, x: Words, m: Words, c: Words, s: Words :: e.key(i, x, m, c, s) == x + [i] + m + c + s + [KEY])
    && (forall i: nat, x: Words, m: Words, c: Words, s: Words :: e.value(i, x, m, c, s) == x + [i] + m + c + s + [VALUE])
    && (forall x: Words, c: Words, s: Words :: e.lastKey(x, c, s) == x + c + s + [KEY])
    && (forall x: Words, c: Words, s: Words :: e.lastValue(x, c, s) == x + c + s + [VALUE])
  }

  ghost predicate TracingActions(e: Engines) {
    forall i: nat, x: Words, t: Suffix, k: Words, v: Words, p: Words, q: Words ::
      e.action(i, x, t, k, v, p, q) == x + [i] + t.mask + t.cos + t.sin + k + v + p + q
  }

  ghost predicate TracingEnds(e: Engines) {
    && (forall a: Words :: e.actionInput(a) == a)
    && (forall x: Words, p: Words :: e.actionOutput(x, p) == x + p)
    && (forall a: Words, v: Words :: e.euler(a, v) == a + v)
  }

  /** 0, 1, .. n - 1. */
  function Counting(n: nat): Words { if n == 0 then [] else Counting(n - 1) + [n - 1] }

  /** The first n language layers, each with the same tables. */
  function LayersRead(mask: Words, cos: Words, sin: Words, n: nat): Words {
    if n == 0 then [] else LayersRead(mask, cos, sin, n - 1) + [n - 1] + mask + cos + sin
  }

  /** What language layer i leaves behind: the prefix as read so far, its own tables, and which of the two it is. */
  function Remembered(prefix: Words, mask: Words, cos: Words, sin: Words, i: nat, onlyKeyValue: bool, which: int): Words {
    prefix + LayersRead(mask, cos, sin, i) + (if onlyKeyValue then [] else [i] + mask) + cos + sin + [which]
  }

  /** Words of one action layer: number, action tables, key and value i, style rows 2i and 2i + 1. */
  function ActionEntry(e: Engines, prefix: Words, valid: int, s: nat, i: nat): Words {
    var m, c, n := e.prefixMask(valid), e.prefixCos(valid), e.prefixSin(valid);
    var last := e.lastLayerIsKeyValueOnly && i + 1 == e.languageLayers;
    [i] + e.suffix(valid).mask + e.suffix(valid).cos + e.suffix(valid).sin
    + Remembered(prefix, m, c, n, i, last, KEY) + Remembered(prefix, m, c, n, i, last, VALUE)
    + e.style(s, 2 * i) + e.style(s, 2 * i + 1)
  }

  function ActionEntries(e: Engines, prefix: Words, valid: int, s: nat, n: nat): Words {
    if n == 0 then [] else ActionEntries(e, prefix, valid, s, n - 1) + ActionEntry(e, prefix, valid, s, n - 1)
  }

  /** The actions after s steps: each adds the actions before it, all layers, and the style row behind theirs. */
  function Steps(e: Engines, prefix: Words, valid: int, noise: Words, s: nat): Words {
    if s == 0 then noise else
    var a := Steps(e, prefix, valid, noise, s - 1);
    a + (a + ActionEntries(e, prefix, valid, s - 1, e.languageLayers) + e.style(s - 1, 2 * e.languageLayers))
  }

  /** Both images through their tower, the first one in front, and the prompt rows behind. */
  function Prefix(e: Engines, image0: Words, image1: Words, tokens: seq<int>): Words {
    (image0 + Counting(e.visionLayers)) + (image1 + Counting(e.visionLayers)) + e.rows(tokens)
  }

  // ---- The composition gives them that ----

  lemma {:induction false} TowerTrace(e: Engines, image: Words, i: nat)
    requires Tracing(e)
    ensures Seen(e, image, i) == image + Counting(i)
  {
    hide Tracing;
    if i > 0 {
      TowerTrace(e, image, i - 1);
      PlainTower(e, i - 1, Seen(e, image, i - 1));
      Assoc(image, Counting(i - 1), [i - 1]);
    } else {
      PlainTower(e, 0, image);
      assert image + [] == image;
    }
  }

  lemma {:induction false} ReadTrace(e: Engines, prefix: Words, t: Tables, i: nat)
    requires Tracing(e)
    ensures Read(e, prefix, t, i) == prefix + LayersRead(t.mask, t.cos, t.sin, i)
  {
    hide Tracing;
    if i > 0 {
      ReadTrace(e, prefix, t, i - 1);
      HiddenAppends(e, i - 1, Read(e, prefix, t, i - 1), t);
      Append4(prefix, LayersRead(t.mask, t.cos, t.sin, i - 1), [i - 1], t.mask, t.cos, t.sin);
    } else {
      assert prefix + [] == prefix;
    }
  }

  lemma HiddenAppends(e: Engines, i: nat, x: Words, t: Tables)
    requires Tracing(e)
    ensures e.hidden(i, x, t.mask, t.cos, t.sin) == x + [i] + t.mask + t.cos + t.sin
  {}

  lemma Append4(a: Words, b: Words, c: Words, d: Words, f: Words, g: Words)
    ensures a + b + c + d + f + g == a + (b + c + d + f + g)
  {
    Assoc(a, b, c);
    Assoc(a, b + c, d);
    Assoc(a, b + c + d, f);
    Assoc(a, b + c + d + f, g);
  }

  lemma Assoc(a: Words, b: Words, c: Words)
    ensures a + b + c == a + (b + c)
  {}

  lemma MemoryTrace(e: Engines, prefix: Words, t: Tables, i: nat)
    requires Tracing(e)
    ensures Memory(e, prefix, t, i).key == Remembered(prefix, t.mask, t.cos, t.sin, i, e.KeyValueOnly(i), KEY)
    ensures Memory(e, prefix, t, i).value == Remembered(prefix, t.mask, t.cos, t.sin, i, e.KeyValueOnly(i), VALUE)
  {
    hide Tracing, Read, LayersRead;
    ReadTrace(e, prefix, t, i);
    var x := prefix + LayersRead(t.mask, t.cos, t.sin, i);
    KeysAppend(e, i, x, t);
    Regroup(x, [i], t.mask, t.cos, t.sin, [KEY]);
    Regroup(x, [i], t.mask, t.cos, t.sin, [VALUE]);
  }

  lemma Regroup(x: Words, i: Words, m: Words, c: Words, s: Words, w: Words)
    ensures x + i + m + c + s + w == x + (i + m) + c + s + w
    ensures x + c + s + w == x + [] + c + s + w
  {
    assert x + i + m == x + (i + m);
    assert x + [] == x;
  }

  lemma KeysAppend(e: Engines, i: nat, x: Words, t: Tables)
    requires Tracing(e)
    ensures e.key(i, x, t.mask, t.cos, t.sin) == x + [i] + t.mask + t.cos + t.sin + [KEY]
    ensures e.value(i, x, t.mask, t.cos, t.sin) == x + [i] + t.mask + t.cos + t.sin + [VALUE]
    ensures e.lastKey(x, t.cos, t.sin) == x + t.cos + t.sin + [KEY]
    ensures e.lastValue(x, t.cos, t.sin) == x + t.cos + t.sin + [VALUE]
  {}

  lemma ActionAppends(e: Engines, i: nat, x: Words, t: Suffix, k: Words, v: Words, p: Words, q: Words)
    requires Tracing(e)
    ensures e.action(i, x, t, k, v, p, q) == x + [i] + t.mask + t.cos + t.sin + k + v + p + q
  {}

  lemma Append8(a: Words, b: Words, c: Words, d: Words, f: Words, g: Words, h: Words, k: Words, l: Words)
    ensures a + b + c + d + f + g + h + k + l == a + (b + c + d + f + g + h + k + l)
  {
    Append4(a, b, c, d, f, g);
    var m := b + c + d + f + g;
    Assoc(a, m, h);
    Assoc(a, m + h, k);
    Assoc(a, m + h + k, l);
  }

  lemma {:induction false} ActedTrace(e: Engines, prefix: Words, valid: int, s: nat, x: Words, n: nat)
    requires Tracing(e) && n <= e.languageLayers
    ensures Acted(e, Memories(e, prefix, TablesFor(e, valid)), e.suffix(valid), s, x, n) == x + ActionEntries(e, prefix, valid, s, n)
  {
    var t, u := TablesFor(e, valid), e.suffix(valid);
    var kv := Memories(e, prefix, t);
    hide Tracing, Memory, Remembered;
    if n > 0 {
      var i := n - 1;
      ActedTrace(e, prefix, valid, s, x, i);
      MemoryTrace(e, prefix, t, i);
      var so := Acted(e, kv, u, s, x, i);
      assert kv[i] == Memory(e, prefix, t, i);
      ActionAppends(e, i, so, u, kv[i].key, kv[i].value, e.style(s, 2 * i), e.style(s, 2 * i + 1));
      Append8(so, [i], u.mask, u.cos, u.sin, kv[i].key, kv[i].value, e.style(s, 2 * i), e.style(s, 2 * i + 1));
      assert ActionEntry(e, prefix, valid, s, i) ==
        [i] + u.mask + u.cos + u.sin + kv[i].key + kv[i].value + e.style(s, 2 * i) + e.style(s, 2 * i + 1);
      Assoc(x, ActionEntries(e, prefix, valid, s, i), ActionEntry(e, prefix, valid, s, i));
    } else {
      assert x + [] == x;
    }
  }

  lemma OuterEngines(e: Engines, a: Words, x: Words, p: Words)
    requires Tracing(e)
    ensures e.actionInput(a) == a && e.actionOutput(x, p) == x + p && e.euler(a, x) == a + x
  {}

  lemma MemoriesLength(e: Engines, prefix: Words, t: Tables)
    ensures |Memories(e, prefix, t)| == e.languageLayers
  {}

  lemma {:induction false} StepsTrace(e: Engines, prefix: Words, valid: int, noise: Words, s: nat)
    requires Tracing(e)
    ensures Denoised(e, Memories(e, prefix, TablesFor(e, valid)), e.suffix(valid), noise, s) == Steps(e, prefix, valid, noise, s)
  {
    MemoriesLength(e, prefix, TablesFor(e, valid));
    hide Tracing, Memories, Acted, ActionEntries;
    if s > 0 {
      StepsTrace(e, prefix, valid, noise, s - 1);
      var kv, a := Memories(e, prefix, TablesFor(e, valid)), Steps(e, prefix, valid, noise, s - 1);
      ActedTrace(e, prefix, valid, s - 1, a, e.languageLayers);
      var x := a + ActionEntries(e, prefix, valid, s - 1, e.languageLayers);
      var p := e.style(s - 1, 2 * e.languageLayers);
      OuterEngines(e, a, x, p);
      OuterEngines(e, a, x + p, p);
    }
  }

  /**
    For any number of layers and steps: every engine runs in its place with its own tables, keys, values
    and style rows, on these two images, this noise and this prompt.
   */
  lemma PolicyIsTraced(e: Engines, image0: Words, image1: Words, noise: Words, tokens: seq<int>)
    requires Tracing(e)
    ensures Policy(e, image0, image1, noise, tokens) ==
      Steps(e, Prefix(e, image0, image1, tokens), CAMERA_TOKENS + |tokens|, noise, e.steps)
  {
    hide Tracing, Denoised, Memories, Steps, Seen, Counting;
    TowerTrace(e, image0, e.visionLayers);
    TowerTrace(e, image1, e.visionLayers);
    PlainTower(e, 0, Seen(e, image0, e.visionLayers));
    PlainTower(e, 0, Seen(e, image1, e.visionLayers));
    StepsTrace(e, Prefix(e, image0, image1, tokens), CAMERA_TOKENS + |tokens|, noise, e.steps);
  }

  lemma PlainTower(e: Engines, i: nat, x: Words)
    requires Tracing(e)
    ensures e.stem(x) == x && e.vision(i, x) == x + [i] && e.tail(x) == x
  {}

  /** Such engines exist, with any counts, style rows, prompt rows and tables. */
  lemma SomeEnginesTrace(like: Engines) returns (e: Engines)
    ensures Tracing(e)
    ensures e.visionLayers == like.visionLayers && e.languageLayers == like.languageLayers && e.steps == like.steps
    ensures e.lastLayerIsKeyValueOnly == like.lastLayerIsKeyValueOnly && e.style == like.style && e.rows == like.rows
    ensures e.prefixMask == like.prefixMask && e.prefixCos == like.prefixCos && e.prefixSin == like.prefixSin && e.suffix == like.suffix
  {
    e := like.(
      stem := (x: Words) => x, vision := (i: nat, x: Words) => x + [i], tail := (x: Words) => x,
      hidden := (i: nat, x: Words, m: Words, c: Words, s: Words) => x + [i] + m + c + s,
      key := (i: nat, x: Words, m: Words, c: Words, s: Words) => x + [i] + m + c + s + [KEY],
      value := (i: nat, x: Words, m: Words, c: Words, s: Words) => x + [i] + m + c + s + [VALUE],
      lastKey := (x: Words, c: Words, s: Words) => x + c + s + [KEY],
      lastValue := (x: Words, c: Words, s: Words) => x + c + s + [VALUE],
      actionInput := (a: Words) => a,
      action := (i: nat, x: Words, t: Suffix, k: Words, v: Words, p: Words, q: Words) => x + [i] + t.mask + t.cos + t.sin + k + v + p + q,
      actionOutput := (x: Words, p: Words) => x + p, euler := (a: Words, v: Words) => a + v);
  }
}
