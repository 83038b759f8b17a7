/**
  One inference of the policy as a schedule of engine runs over reused device buffers, and the pure
  composition of the engines that it has to be equal to. Engines are uninterpreted functions.
 */
module PolicyRuntime {

  type Words = seq<int>

  const CAMERA_TOKENS := 512

  /**
    The engines of a bundle and its constant tables. `features` and `prompt` are buffer sizes, `positions`
    is the length of the rotary tables; masks and rotary rows depend only on the number of valid tokens.
   */
  datatype Engines = Engines(
    visionLayers: nat, languageLayers: nat, steps: nat, lastLayerIsKeyValueOnly: bool,
    features: nat, prompt: nat, prefixTokens: nat, horizon: nat, positions: int, vocabulary: int,
    stem: Words -> Words, vision: (nat, Words) -> Words, tail: Words -> Words,
    hidden: (nat, Words, Words, Words, Words) -> Words,
    key: (nat, Words, Words, Words, Words) -> Words, value: (nat, Words, Words, Words, Words) -> Words,
    lastKey: (Words, Words, Words) -> Words, lastValue: (Words, Words, Words) -> Words,
    actionInput: Words -> Words, action: (nat, Words, Suffix, Words, Words, Words, Words) -> Words,
    actionOutput: (Words, Words) -> Words, euler: (Words, Words) -> Words,
    style: (nat, nat) -> Words, rows: seq<int> -> Words,
    prefixMask: int -> Words, prefixCos: int -> Words, prefixSin: int -> Words, suffix: int -> Suffix)
  {
    ghost predicate Shaped() {
      && (forall x :: |tail(x)| == features)
      && (forall i, x, m, c, s :: |hidden(i, x, m, c, s)| == 2 * features + prompt)
      && (forall t :: |rows(t)| == prompt)
    }

    predicate KeyValueOnly(i: nat) { lastLayerIsKeyValueOnly && i + 1 == languageLayers }
  }

  /** Mask and rotary tables of the action tokens. */
  datatype Suffix = Suffix(mask: Words, cos: Words, sin: Words)

  datatype KeyValue = KeyValue(key: Words, value: Words)

  // ---- The composition ----

  function Seen(e: Engines, image: Words, i: nat): Words {
    if i == 0 then e.stem(image) else e.vision(i - 1, Seen(e, image, i - 1))
  }

  function Tower(e: Engines, image: Words): Words { e.tail(Seen(e, image, e.visionLayers)) }

  datatype Tables = Tables(mask: Words, cos: Words, sin: Words)

  function TablesFor(e: Engines, valid: int): Tables {
    Tables(e.prefixMask(valid), e.prefixCos(valid), e.prefixSin(valid))
  }

  function Read(e: Engines, prefix: Words, t: Tables, i: nat): Words {
    if i == 0 then prefix else e.hidden(i - 1, Read(e, prefix, t, i - 1), t.mask, t.cos, t.sin)
  }

  function Memory(e: Engines, prefix: Words, t: Tables, i: nat): KeyValue {
    var x := Read(e, prefix, t, i);
    if e.KeyValueOnly(i) then KeyValue(e.lastKey(x, t.cos, t.sin), e.lastValue(x, t.cos, t.sin))
    else KeyValue(e.key(i, x, t.mask, t.cos, t.sin), e.value(i, x, t.mask, t.cos, t.sin))
  }

  function Memories(e: Engines, prefix: Words, t: Tables): seq<KeyValue> {
    seq(e.languageLayers, i requires i >= 0 => Memory(e, prefix, t, i))
  }

  /** Action layer i of step s, with its two style rows; one more row is for the output. */
  function Layer(e: Engines, kv: KeyValue, suffix: Suffix, s: nat, i: nat, x: Words): Words {
    e.action(i, x, suffix, kv.key, kv.value, e.style(s, 2 * i), e.style(s, 2 * i + 1))
  }

  function Acted(e: Engines, kv: seq<KeyValue>, suffix: Suffix, s: nat, x: Words, i: nat): Words
    requires i <= |kv|
  {
    if i == 0 then x else Layer(e, kv[i - 1], suffix, s, i - 1, Acted(e, kv, suffix, s, x, i - 1))
  }

  function Velocity(e: Engines, kv: seq<KeyValue>, suffix: Suffix, s: nat, a: Words): Words {
    e.actionOutput(Acted(e, kv, suffix, s, e.actionInput(a), |kv|), e.style(s, 2 * e.languageLayers))
  }

  function Denoised(e: Engines, kv: seq<KeyValue>, suffix: Suffix, noise: Words, s: nat): Words {
    if s == 0 then noise else
    var a := Denoised(e, kv, suffix, noise, s - 1);
    e.euler(a, Velocity(e, kv, suffix, s - 1, a))
  }

  /** The actions for two images, a noise and whatever prompt rows and tables are uploaded. */
  function Composed(e: Engines, image0: Words, image1: Words, noise: Words, rows: Words, t: Tables, suffix: Suffix): Words {
    Denoised(e, Memories(e, Tower(e, image0) + Tower(e, image1) + rows, t), suffix, noise, e.steps)
  }

  /** The actions for two images, a noise and a prompt: nothing else goes in. */
  function Policy(e: Engines, image0: Words, image1: Words, noise: Words, tokens: seq<int>): Words {
    var valid := CAMERA_TOKENS + |tokens|;
    Composed(e, image0, image1, noise, e.rows(tokens), TablesFor(e, valid), e.suffix(valid))
  }

  predicate Acceptable(e: Engines, tokens: seq<int>) {
    tokens != [] && CAMERA_TOKENS + |tokens| <= e.prefixTokens && forall t <- tokens :: 0 <= t < e.vocabulary
  }

  /** The rotary tables have the row of every valid prefix token, and of every action token behind them. */
  predicate PrefixReaches(e: Engines, valid: int) { valid < e.positions }

  predicate SuffixReaches(e: Engines, valid: int) { e.horizon == 0 || valid + e.horizon < e.positions }

  predicate Reaches(e: Engines, valid: int) { PrefixReaches(e, valid) && SuffixReaches(e, valid) }

  // ---- Prompts ----

  /**
    What is uploaded and what is recorded about it. Rows, or tables, are torn when an upload that threw left
    those of a prompt that never became current.
   */
  datatype Prompt = Prompt(rows: Words, tables: Tables, suffix: Suffix, validTokens: int, current: seq<int>,
                           tornRows: bool, tornTables: bool)
  {
    predicate Torn() { tornRows || tornTables }
  }

  /**
    New masks and rotary rows. The rotary rows are looked up one table at a time, so a position outside
    them throws with the masks, and possibly the prefix rows, already uploaded.
   */
  function AfterTables(e: Engines, p: Prompt, valid: int): (q: Prompt)
    ensures q.rows == p.rows
  {
    if !PrefixReaches(e, valid) then
      p.(tables := p.tables.(mask := e.prefixMask(valid)), suffix := p.suffix.(mask := e.suffix(valid).mask), tornTables := true)
    else if !SuffixReaches(e, valid) then
      p.(tables := TablesFor(e, valid), suffix := p.suffix.(mask := e.suffix(valid).mask), tornTables := true)
    else p.(tables := TablesFor(e, valid), suffix := e.suffix(valid), validTokens := valid, tornTables := false)
  }

  /** Whether a call returns: the prompt is current already, or acceptable and within the rotary tables. */
  predicate Returns(e: Engines, p: Prompt, tokens: seq<int>) {
    || tokens == p.current
    || (Acceptable(e, tokens) && (CAMERA_TOKENS + |tokens| == p.validTokens || Reaches(e, CAMERA_TOKENS + |tokens|)))
  }

  /** New rows, and new tables when the number of tokens changed. */
  function AfterPrompt(e: Engines, p: Prompt, tokens: seq<int>): Prompt {
    if tokens == p.current || !Acceptable(e, tokens) then p else
    var valid := CAMERA_TOKENS + |tokens|;
    var q := p.(rows := e.rows(tokens), tornRows := true);
    var t := if valid != p.validTokens then AfterTables(e, q, valid) else q;
    if Returns(e, p, tokens) then t.(current := tokens, tornRows := false) else t
  }

  /** Unless torn, tables are those of the last valid count, rows those of the current prompt. */
  ghost predicate Matching(e: Engines, p: Prompt) {
    && (p.validTokens != -1 && !p.tornTables ==> p.tables == TablesFor(e, p.validTokens) && p.suffix == e.suffix(p.validTokens))
    && (p.current != [] ==> p.validTokens == CAMERA_TOKENS + |p.current|)
    && (p.current != [] && !p.tornRows ==> p.rows == e.rows(p.current))
  }

  lemma MatchingKept(e: Engines, p: Prompt, tokens: seq<int>)
    requires Matching(e, p)
    ensures Matching(e, AfterPrompt(e, p, tokens))
  {}

  /** With nothing torn, what is uploaded makes the policy of the current prompt. */
  lemma MatchingIsPolicy(e: Engines, p: Prompt, image0: Words, image1: Words, noise: Words)
    requires Matching(e, p) && p.current != [] && !p.Torn()
    ensures Composed(e, image0, image1, noise, p.rows, p.tables, p.suffix) == Policy(e, image0, image1, noise, p.current)
  {
    hide Composed;
  }

  /** Nothing uploaded yet. */
  function NoPrompt(rows: Words): Prompt {
    Prompt(rows, Tables([], [], []), Suffix([], [], []), -1, [], false, false)
  }

  function AfterPrompts(e: Engines, p: Prompt, run: seq<seq<int>>): Prompt {
    if run == [] then p else AfterPrompt(e, AfterPrompts(e, p, run[..|run| - 1]), run[|run| - 1])
  }

  /** What a bundle must have for no prompt ever to be torn: rotary tables as long as its longest prompt. */
  predicate TablesSuffice(e: Engines) {
    e.vocabulary <= 0 || e.prefixTokens <= CAMERA_TOKENS || Reaches(e, e.prefixTokens)
  }

  lemma OnePromptNeverTorn(e: Engines, p: Prompt, tokens: seq<int>)
    requires TablesSuffice(e) && !p.Torn()
    ensures !AfterPrompt(e, p, tokens).Torn()
  {
    if Acceptable(e, tokens) {
      assert tokens[0] in tokens && 0 <= tokens[0] < e.vocabulary;
      assert Reaches(e, e.prefixTokens);
    }
  }

  lemma {:induction false} NeverTorn(e: Engines, p: Prompt, run: seq<seq<int>>)
    requires TablesSuffice(e) && !p.Torn()
    ensures !AfterPrompts(e, p, run).Torn()
  {
    if run != [] {
      NeverTorn(e, p, run[..|run| - 1]);
      OnePromptNeverTorn(e, AfterPrompts(e, p, run[..|run| - 1]), run[|run| - 1]);
    }
  }

  function Zeros(n: nat): (t: seq<int>)
    ensures |t| == n && forall x <- t :: x == 0
  {
    seq(n, _ => 0)
  }

  /** Calls of set_prompt on a new runtime that leave something torn. */
  predicate Tears(e: Engines, rows: Words, run: seq<seq<int>>) { AfterPrompts(e, NoPrompt(rows), run).Torn() }

  /** No calls of set_prompt ever leave torn rows or tables, exactly if the rotary tables suffice. */
  lemma NeverTornIff(e: Engines, rows: Words)
    ensures TablesSuffice(e) <==> forall run: seq<seq<int>> :: !Tears(e, rows, run)
  {
    if TablesSuffice(e) {
      forall run: seq<seq<int>> ensures !Tears(e, rows, run) { NeverTorn(e, NoPrompt(rows), run); }
    } else {
      var longest := Zeros(e.prefixTokens - CAMERA_TOKENS);
      assert [longest][..0] == [];
      assert Acceptable(e, longest) && |longest| > 0;
      assert AfterPrompts(e, NoPrompt(rows), [longest]) == AfterPrompt(e, NoPrompt(rows), longest);
      assert Tears(e, rows, [longest]);
    }
  }

  // ---- Copies ----

  function Overwritten(p: Words, offset: nat, data: Words): (q: Words)
    requires offset + |data| <= |p|
    ensures |q| == |p|
  {
    p[..offset] + data + p[offset + |data|..]
  }

  /** Three copies side by side leave nothing of what was there. */
  lemma CopiesCover(p: Words, a: Words, b: Words, c: Words)
    requires |p| == |a| + |b| + |c|
    ensures Overwritten(Overwritten(Overwritten(p, 0, a), |a|, b), |a| + |b|, c) == a + b + c
  {}

  lemma ReadNothing(e: Engines, prefix: Words, t: Tables)
    ensures Read(e, prefix, t, 0) == prefix
  {}

  lemma RowsFit(e: Engines, tokens: seq<int>)
    requires e.Shaped()
    ensures |e.rows(tokens)| == e.prompt
  {}

  // ---- The buffers ----

  class Runtime {
    const e: Engines
    var images: seq<Words>
    var vis: seq<Words>
    var features: Words
    var prefix: seq<Words>
    var rows: Words
    var tables: Tables
    var suffix: Suffix
    var kv: seq<KeyValue>
    var expert: seq<Words>
    var actions: seq<Words>
    var velocity: Words
    var validTokens: int
    var currentTokens: seq<int>
    var primed: bool
    ghost var tornRows: bool
    ghost var tornTables: bool

    /** Every buffer has its size; contents left by earlier runs are arbitrary. */
    ghost predicate Allocated()
      reads this
    {
      && |images| == |vis| == |prefix| == |expert| == |actions| == 2
      && |prefix[0]| == |prefix[1]| == 2 * e.features + e.prompt && |rows| == e.prompt
      && |kv| == e.languageLayers
    }

    ghost function Uploaded(): Prompt
      reads this
    {
      Prompt(rows, tables, suffix, validTokens, currentTokens, tornRows, tornTables)
    }

    ghost predicate Valid()
      reads this
    {
      e.Shaped() && Allocated() && Matching(e, Uploaded())
    }

    constructor (e: Engines)
      requires e.Shaped()
      ensures Valid() && this.e == e && Uploaded() == NoPrompt(rows)
    {
      this.e := e;
      images, vis, expert, actions := [[], []], [[], []], [[], []], [[], []];
      var size := 2 * e.features + e.prompt;
      prefix := [seq(size, _ => 0), seq(size, _ => 0)];
      rows := seq(e.prompt, _ => 0);
      features, velocity := [], [];
      tables, suffix := Tables([], [], []), Suffix([], [], []);
      kv := seq(e.languageLayers, _ => KeyValue([], []));
      validTokens, currentTokens, primed := -1, [], false;
      tornRows, tornTables := false, false;
    }

    /** One camera through the vision tower, back and forth between two buffers. */
    method See(camera: nat)
      requires e.Shaped() && Allocated() && camera < 2
      modifies `vis, `features
      ensures Allocated() && features == Tower(e, images[camera]) && |features| == e.features
    {
      vis := vis[0 := e.stem(images[camera])];
      var i := 0;
      while i < e.visionLayers
        modifies `vis
        invariant 0 <= i <= e.visionLayers && |vis| == 2
        invariant vis[i % 2] == Seen(e, images[camera], i)
      {
        vis := vis[1 - i % 2 := e.vision(i, vis[i % 2])];
        i := i + 1;
      }
      features := e.tail(vis[e.visionLayers % 2]);
    }

    /** Overwrites part of the prefix, whatever was there. */
    method CopyIntoPrefix(offset: nat, data: Words)
      requires |prefix| == 2 && offset + |data| <= |prefix[0]|
      modifies `prefix
      ensures |prefix| == 2 && prefix[1] == old(prefix[1])
      ensures prefix[0] == Overwritten(old(prefix[0]), offset, data)
    {
      prefix := prefix[0 := Overwritten(prefix[0], offset, data)];
    }

    method AssemblePrefix()
      requires e.Shaped() && Allocated()
      modifies `vis, `features, `prefix
      ensures Allocated() && prefix[0] == Tower(e, images[0]) + Tower(e, images[1]) + rows
    {
      hide Tower;
      hide Overwritten;
      ghost var before := prefix[0];
      See(0);
      CopyIntoPrefix(0, features);
      ghost var first := features;
      See(1);
      CopyIntoPrefix(|features|, features);
      CopyIntoPrefix(2 * |features|, rows);
      CopiesCover(before, first, features, rows);
    }

    method ReadPrefix()
      requires e.Shaped() && Allocated()
      modifies `prefix, `kv
      ensures Allocated() && kv == Memories(e, old(prefix[0]), tables)
    {
      hide Memory, Read, Engines.Shaped;
      ghost var p := prefix[0];
      ReadNothing(e, p, tables);
      var i := 0;
      while i < e.languageLayers
        invariant 0 <= i <= e.languageLayers && Allocated()
        invariant i < e.languageLayers || !e.lastLayerIsKeyValueOnly ==> prefix[i % 2] == Read(e, p, tables, i)
        invariant forall k | 0 <= k < i :: kv[k] == Memory(e, p, tables, k)
      {
        ReadLayer(i, p);
        i := i + 1;
      }
    }

    method ReadLayer(i: nat, ghost p: Words)
      requires e.Shaped() && Allocated() && i < e.languageLayers && prefix[i % 2] == Read(e, p, tables, i)
      modifies `prefix, `kv
      ensures Allocated() && kv == old(kv)[i := Memory(e, p, tables, i)]
      ensures !e.KeyValueOnly(i) ==> prefix[(i + 1) % 2] == Read(e, p, tables, i + 1)
    {
      var x := prefix[i % 2];
      if e.KeyValueOnly(i) {
        kv := kv[i := KeyValue(e.lastKey(x, tables.cos, tables.sin), e.lastValue(x, tables.cos, tables.sin))];
      } else {
        prefix := prefix[1 - i % 2 := e.hidden(i, x, tables.mask, tables.cos, tables.sin)];
        kv := kv[i := KeyValue(e.key(i, x, tables.mask, tables.cos, tables.sin),
                               e.value(i, x, tables.mask, tables.cos, tables.sin))];
      }
    }

    method Act(s: nat, x: Words)
      requires Allocated()
      modifies `expert
      ensures Allocated() && expert[e.languageLayers % 2] == Acted(e, kv, suffix, s, x, e.languageLayers)
    {
      hide Layer;
      expert := expert[0 := x];
      var i := 0;
      while i < e.languageLayers
        modifies `expert
        invariant 0 <= i <= e.languageLayers && |expert| == 2
        invariant expert[i % 2] == Acted(e, kv, suffix, s, x, i)
      {
        ActOnce(s, i);
        i := i + 1;
      }
    }

    method ActOnce(s: nat, i: nat)
      requires |expert| == 2 && i < |kv|
      modifies `expert
      ensures |expert| == 2 && expert[(i + 1) % 2] == Layer(e, kv[i], suffix, s, i, old(expert[i % 2]))
    {
      expert := expert[1 - i % 2 := Layer(e, kv[i], suffix, s, i, expert[i % 2])];
    }

    method DenoiseStep(s: nat)
      requires Allocated()
      modifies `expert, `velocity, `actions
      ensures Allocated() && actions[s % 2] == old(actions[s % 2])
      ensures var a := old(actions[s % 2]);
        actions[(s + 1) % 2] == e.euler(a, Velocity(e, kv, suffix, s, a))
    {
      Act(s, e.actionInput(actions[s % 2]));
      velocity := e.actionOutput(expert[e.languageLayers % 2], e.style(s, 2 * e.languageLayers));
      actions := actions[(s + 1) % 2 := e.euler(actions[s % 2], velocity)];
    }

    method Denoise()
      requires Allocated()
      modifies `expert, `velocity, `actions
      ensures Allocated() && actions[e.steps % 2] == Denoised(e, kv, suffix, old(actions[0]), e.steps)
    {
      ghost var noise := actions[0];
      var s := 0;
      while s < e.steps
        invariant 0 <= s <= e.steps && Allocated()
        invariant actions[s % 2] == Denoised(e, kv, suffix, noise, s)
      {
        DenoiseStep(s);
        s := s + 1;
      }
    }

    /** The whole chain, or the replay of its captured graph: the same runs on the same buffers. */
    method Enqueue()
      requires e.Shaped() && Allocated()
      modifies `vis, `features, `prefix, `kv, `expert, `velocity, `actions
      ensures Allocated()
      ensures actions[e.steps % 2] == Composed(e, images[0], images[1], old(actions[0]), rows, tables, suffix)
    {
      hide Memories, Denoised, Tower;
      AssemblePrefix();
      ReadPrefix();
      Denoise();
    }

    method Prime()
      requires Valid()
      modifies `vis, `features, `prefix, `kv, `expert, `velocity, `actions, `primed
      ensures Valid() && primed
    {
      hide Composed, Engines.Shaped;
      Enqueue();
      primed := true;
    }

    method TokensKnown(tokens: seq<int>) returns (ok: bool)
      ensures ok == forall t <- tokens :: 0 <= t < e.vocabulary
    {
      var i := 0;
      while i < |tokens|
        invariant 0 <= i <= |tokens| && forall k | 0 <= k < i :: 0 <= tokens[k] < e.vocabulary
      {
        if tokens[i] < 0 || tokens[i] >= e.vocabulary { assert tokens[i] in tokens; return false; }
        i := i + 1;
      }
      return true;
    }

    method UploadTables(valid: int) returns (ok: bool)
      modifies `tables, `suffix, `validTokens, `tornTables
      ensures ok == Reaches(e, valid) && Uploaded() == AfterTables(e, old(Uploaded()), valid)
    {
      tables := tables.(mask := e.prefixMask(valid));
      suffix := suffix.(mask := e.suffix(valid).mask);
      tornTables := true;
      if valid >= e.positions { return false; }
      tables := tables.(cos := e.prefixCos(valid), sin := e.prefixSin(valid));
      if e.horizon > 0 && valid + e.horizon >= e.positions { return false; }
      suffix := e.suffix(valid);
      tornTables := false;
      validTokens := valid;
      return true;
    }

    method Upload(tokens: seq<int>) returns (ok: bool)
      requires Acceptable(e, tokens) && tokens != currentTokens
      modifies `rows, `tables, `suffix, `validTokens, `currentTokens, `tornRows, `tornTables
      ensures ok == Returns(e, old(Uploaded()), tokens) && Uploaded() == AfterPrompt(e, old(Uploaded()), tokens)
    {
      hide Acceptable, Reaches, AfterTables;
      var valid := CAMERA_TOKENS + |tokens|;
      rows := e.rows(tokens);
      tornRows := true;
      if valid != validTokens {
        ok := UploadTables(valid);
        if !ok { return; }
      }
      currentTokens := tokens;
      tornRows := false;
      return true;
    }

    /**
      The first prompt also runs the chain once, on whatever the buffers hold. A prompt that is refused
      changes nothing; one whose positions the rotary tables do not reach throws and leaves its rows and
      masks behind, with the old prompt still current.
     */
    method SetPrompt(tokens: seq<int>) returns (ok: bool)
      requires Valid()
      modifies this
      ensures Valid()
      ensures ok == Returns(e, old(Uploaded()), tokens) && Uploaded() == AfterPrompt(e, old(Uploaded()), tokens)
    {
      hide Composed, Engines.Shaped, Reaches, AfterTables, Matching;
      if tokens == currentTokens { return true; }
      if tokens == [] || CAMERA_TOKENS + |tokens| > e.prefixTokens { return false; }
      var known := TokensKnown(tokens);
      if !known { return false; }
      MatchingKept(e, Uploaded(), tokens);
      RowsFit(e, tokens);
      ok := Upload(tokens);
      if ok && !primed { Prime(); }
    }

    /**
      Whatever prompts and inferences came before, the result is the composition over what is uploaded;
      unless the last uploads were torn, that is the policy on these images, this noise and the last prompt.
     */
    method Infer(image0: Words, image1: Words, noise: Words) returns (ok: bool, result: Words)
      requires Valid()
      modifies this
      ensures Valid() && Uploaded() == old(Uploaded())
      ensures ok == (currentTokens != [])
      ensures ok ==> result == Composed(e, image0, image1, noise, rows, tables, suffix)
      ensures ok && !tornRows && !tornTables ==> result == Policy(e, image0, image1, noise, currentTokens)
    {
      hide Composed, Policy, Matching, Engines.Shaped;
      if currentTokens == [] { return false, []; }
      images := [image0, image1];
      actions := actions[0 := noise];
      if !Uploaded().Torn() { MatchingIsPolicy(e, Uploaded(), image0, image1, noise); }
      Enqueue();
      return true, actions[e.steps % 2];
    }
  }

  // ---- A torn prompt ----

  /** One language layer whose action layer hands the prompt rows through, and rotary tables for one token. */
  function Echo(): Engines {
    Engines(0, 1, 1, false, 0, 1, CAMERA_TOKENS + 4, 0, CAMERA_TOKENS + 2, 10,
      _ => [], (_, _) => [], _ => [],
      (_, _, _, _, _) => [0], (_, x, _, _, _) => x, (_, x, _, _, _) => x, (x, _, _) => x, (x, _, _) => x,
      x => x, (_, _, _, key, _, _, _) => key, (x, _) => x, (_, v) => v,
      (_, _) => [], t => [if t == [] then 0 else t[0]],
      _ => [], _ => [], _ => [], _ => Suffix([], [], []))
  }

  lemma EchoEchoes(rows: Words, t: Tables, suffix: Suffix)
    requires |rows| == 1
    ensures Composed(Echo(), [], [], [], rows, t, suffix) == rows
  {
    var e := Echo();
    var prefix := Tower(e, []) + Tower(e, []) + rows;
    assert prefix == rows;
    var kv := Memories(e, prefix, t);
    assert kv[0].key == Read(e, prefix, t, 0) == rows;
    assert Acted(e, kv, suffix, 0, [], 1) == Layer(e, kv[0], suffix, 0, 0, []) == rows;
    assert Velocity(e, kv, suffix, 0, []) == Acted(e, kv, suffix, 0, [], 1);
    assert Denoised(e, kv, suffix, [], 0) == [];
    assert Denoised(e, kv, suffix, [], 1) == Velocity(e, kv, suffix, 0, []);
    assert Composed(e, [], [], [], rows, t, suffix) == Denoised(e, kv, suffix, [], 1);
  }

  lemma EchoCalls()
    ensures var e, none := Echo(), NoPrompt([0]);
      var first := AfterPrompt(e, none, [1]);
      var second := AfterPrompt(e, first, [2, 3]);
      && Returns(e, none, [1]) && !Returns(e, first, [2, 3]) && Returns(e, second, [1])
      && second.rows == [2] && second.current == [1] && AfterPrompt(e, second, [1]) == second && second.Torn()
  {
    assert Echo().rows([2, 3]) == [2];
  }

  lemma ThreePrompts(e: Engines, p: Prompt, a: seq<int>, b: seq<int>, c: seq<int>)
    ensures AfterPrompts(e, p, [a, b, c]) == AfterPrompt(e, AfterPrompt(e, AfterPrompt(e, p, a), b), c)
  {
    hide AfterPrompt;
    assert [a, b, c][..2] == [a, b] && [a, b][..1] == [a] && [a][..0] == [];
    assert AfterPrompts(e, p, [a]) == AfterPrompt(e, p, a);
    assert AfterPrompts(e, p, [a, b]) == AfterPrompt(e, AfterPrompts(e, p, [a]), b);
  }

  /**
    A prompt, one that throws, and the first one again, which returns: inferences go on with the rows of
    the one that threw.
   */
  lemma TornPromptShows()
    ensures var e := Echo();
      var p := AfterPrompts(e, NoPrompt([0]), [[1], [2, 3], [1]]);
      && e.Shaped() && p.current == [1] && p.Torn() && Returns(e, p, [1])
      && Composed(e, [], [], [], p.rows, p.tables, p.suffix) == [2]
      && Policy(e, [], [], [], [1]) == [1]
  {
    hide Composed, AfterPrompt, AfterPrompts;
    var e := Echo();
    EchoCalls();
    ThreePrompts(e, NoPrompt([0]), [1], [2, 3], [1]);
    var p := AfterPrompts(e, NoPrompt([0]), [[1], [2, 3], [1]]);
    EchoEchoes(p.rows, p.tables, p.suffix);
    assert e.rows([1]) == [1];
    EchoEchoes(e.rows([1]), TablesFor(e, CAMERA_TOKENS + 1), e.suffix(CAMERA_TOKENS + 1));
  }
}
