/** The planner's estimate in figures: what every number of it amounts to, from the published data alone. */
module Sizing {
  import opened Basics
  import opened Planner

  /** The hub publishes the model's size. */
  predicate Sized(model: Model) {
    model.parameters.Some? && model.parameters.value != map[]
  }

  /** The context that is planned for: 4096 tokens unless given, and never more than the model has positions. */
  lemma ContextIsCapped(model: Model, cfg: Config, contextTokens: int)
    requires Sized(model)
    ensures var wanted := if contextTokens <= 0 then 4096 else contextTokens;
            EstimateOf(model, cfg, contextTokens).value.contextTokens
            == if 0 < cfg.maxPositions < wanted then cfg.maxPositions else wanted
  {
    hide DetectQuantization, KvCacheBytes, QuantBits, Sum, TruncDiv, ToLower;
  }

  /** The total: weights, cache, and two GiB. */
  lemma TotalIsSum(model: Model, cfg: Config, contextTokens: int)
    requires Sized(model)
    ensures var est := EstimateOf(model, cfg, contextTokens).value;
            est.overheadBytes == 2_147_483_648 && est.totalBytes == est.weightBytes + est.kvCacheBytes + 2_147_483_648
  {
    hide DetectQuantization, KvCacheBytes, QuantBits, Sum, TruncDiv, ToLower, ContextFor;
  }

  // ----- the key/value cache -----

  /** Heads whose keys and values are stored: the attention heads, where no other number is given. */
  function StoredHeads(cfg: Config): int {
    if cfg.keyValueHeads != 0 then cfg.keyValueHeads else cfg.attentionHeads
  }

  /** `dim` is the given dimension of a head, or the one that divides the hidden size among the attention heads. */
  predicate IsHeadDim(cfg: Config, dim: int) {
    if cfg.headDim != 0 || cfg.attentionHeads <= 0 then dim == cfg.headDim
    else if cfg.hiddenSize >= 0 then
      dim >= 0 && dim * cfg.attentionHeads <= cfg.hiddenSize < (dim + 1) * cfg.attentionHeads
    else dim <= 0 && (dim - 1) * cfg.attentionHeads < cfg.hiddenSize <= dim * cfg.attentionHeads
  }

  lemma HeadDimIs(cfg: Config, dim: int)
    requires IsHeadDim(cfg, dim)
    ensures HeadDim(cfg) == dim
  {
    var a, b := cfg.hiddenSize, cfg.attentionHeads;
    if cfg.headDim == 0 && b > 0 {
      if a >= 0 {
        QuotientIs(a, b, dim);
      } else {
        assert (-dim) * b == -(dim * b) && (-dim + 1) * b == -((dim - 1) * b);
        QuotientIs(-a, b, -dim);
      }
    }
  }

  /** Two tensors, for every layer, head, dimension of a head and token, two bytes each. */
  lemma CacheBytes(model: Model, cfg: Config, contextTokens: int, dim: int)
    requires Sized(model) && IsHeadDim(cfg, dim)
    ensures var est := EstimateOf(model, cfg, contextTokens).value;
            && est.kvCacheBytes == 2 * cfg.layers * StoredHeads(cfg) * dim * est.contextTokens * 2
            && (est.kvCacheUnknown <==> cfg.layers == 0 || StoredHeads(cfg) == 0 || dim == 0)
  {
    HeadDimIs(cfg, dim);
    ContextIsCapped(model, cfg, contextTokens);
    CacheOf(model, cfg, contextTokens);
    hide EstimateOf, IsHeadDim;
    var tokens := EstimateOf(model, cfg, contextTokens).value.contextTokens;
    NotZero(cfg.layers, StoredHeads(cfg), dim, tokens);
  }

  lemma CacheOf(model: Model, cfg: Config, contextTokens: int)
    requires Sized(model)
    ensures var est := EstimateOf(model, cfg, contextTokens).value;
            && est.kvCacheBytes == KvCacheBytes(cfg, est.contextTokens)
            && est.kvCacheUnknown == (est.kvCacheBytes == 0)
  {
    hide DetectQuantization, KvCacheBytes, QuantBits, Sum, TruncDiv, ToLower, ContextFor;
  }

  lemma NotZero(a: int, b: int, c: int, d: int)
    requires d > 0
    ensures 2 * a * b * c * d * 2 == 2 * a * b * c * 2 * d
    ensures 2 * a * b * c * d * 2 == 0 <==> a == 0 || b == 0 || c == 0
  {
    Product(a, b);
    Product(a * b, c);
    Product(a * b * c, d);
    assert 2 * a * b * c * d * 2 == 4 * (a * b * c * d);
    assert 2 * a * b * c * 2 * d == 4 * (a * b * c * d);
  }

  lemma Product(x: int, y: int)
    ensures x * y == 0 <==> x == 0 || y == 0
  {
  }

  datatype Tensor = Key | Value

  /** Each element of `s` with each number below `n`. */
  function Times<T(!new)>(s: set<T>, n: nat): set<(T, nat)> {
    set x, i: nat | x in s && i < n :: (x, i)
  }

  /** The values a full cache stores: one for each tensor, layer, head, dimension and token. */
  function StoredValues(layers: nat, heads: nat, dim: nat, tokens: nat): set<((((Tensor, nat), nat), nat), nat)> {
    Times(Times(Times(Times({Key, Value}, layers), heads), dim), tokens)
  }

  function Tagged<T(!new)>(s: set<T>, i: nat): set<(T, nat)> {
    set x | x in s :: (x, i)
  }

  lemma {:induction false} TaggedCount<T(!new)>(s: set<T>, i: nat)
    ensures |Tagged(s, i)| == |s|
  {
    if s != {} {
      var x :| x in s;
      TaggedCount(s - {x}, i);
      assert Tagged(s, i) == Tagged(s - {x}, i) + {(x, i)};
    }
  }

  lemma {:induction false} TimesCount<T(!new)>(s: set<T>, n: nat)
    ensures |Times(s, n)| == |s| * n
  {
    if n == 0 {
      assert Times(s, n) == {};
    } else {
      TimesCount(s, n - 1);
      TaggedCount(s, n - 1);
      assert Times(s, n) == Times(s, n - 1) + Tagged(s, n - 1);
      assert Times(s, n - 1) !! Tagged(s, n - 1);
    }
  }

  lemma StoredCount(layers: nat, heads: nat, dim: nat, tokens: nat)
    ensures |StoredValues(layers, heads, dim, tokens)| == 2 * layers * heads * dim * tokens
  {
    var tensors := {Key, Value};
    TimesCount(tensors, layers);
    TimesCount(Times(tensors, layers), heads);
    TimesCount(Times(Times(tensors, layers), heads), dim);
    TimesCount(Times(Times(Times(tensors, layers), heads), dim), tokens);
    hide Times;
  }

  /** The planned cache has room for exactly the values of a full context, in two bytes each. */
  lemma CacheHoldsStoredValues(model: Model, cfg: Config, contextTokens: int, dim: int)
    requires Sized(model) && IsHeadDim(cfg, dim) && cfg.layers >= 0 && StoredHeads(cfg) >= 0 && dim >= 0
    ensures var est := EstimateOf(model, cfg, contextTokens).value;
            est.contextTokens > 0
            && est.kvCacheBytes == 2 * |StoredValues(cfg.layers, StoredHeads(cfg), dim, est.contextTokens)|
  {
    CacheBytes(model, cfg, contextTokens, dim);
    ContextIsCapped(model, cfg, contextTokens);
    var tokens := EstimateOf(model, cfg, contextTokens).value.contextTokens;
    StoredCount(cfg.layers, StoredHeads(cfg), dim, tokens);
    hide EstimateOf, StoredValues, IsHeadDim;
  }

  // ----- the weights -----

  lemma WeightOf(model: Model, cfg: Config, contextTokens: int)
    requires Sized(model)
    ensures var est := EstimateOf(model, cfg, contextTokens).value;
            && est.quantization == DetectQuantization(model, cfg)
            && est.paramCount == Sum(model.parameters.value.Keys, CountOf(model.parameters.value))
            && est.weightBytes == TruncDiv(Sum(model.parameters.value.Keys,
                                     BitsOf(model.parameters.value, QuantBits(est.quantization, cfg))), 8)
  {
    hide DetectQuantization, KvCacheBytes, QuantBits, Sum, TruncDiv, ToLower, ContextFor;
  }

  lemma SumOfOne(k: string, value: string -> int)
    ensures Sum({k}, value) == value(k)
  {
    SumPick({k}, value, k);
    assert {k} - {k} == {};
  }

  /** A model stored in one tensor type. */
  predicate OneType(model: Model, dtype: string, count: nat) {
    model.parameters == Some(map[dtype := count])
  }

  lemma OneTypeWeight(model: Model, cfg: Config, contextTokens: int, dtype: string, count: nat)
    requires OneType(model, dtype, count)
    ensures Sized(model)
    ensures var est := EstimateOf(model, cfg, contextTokens).value;
            && est.paramCount == count
            && est.weightBytes == count * BitsPerParam(dtype, QuantBits(est.quantization, cfg)) / 8
  {
    var census := map[dtype := count];
    assert dtype in census && census.Keys == {dtype};
    WeightOf(model, cfg, contextTokens);
    var bits := QuantBits(EstimateOf(model, cfg, contextTokens).value.quantization, cfg);
    SumOfOne(dtype, CountOf(census));
    SumOfOne(dtype, BitsOf(census, bits));
    hide EstimateOf, QuantBits, BitsPerParam, Sum;
    ScaleOrder(0, count, BitsPerParam(dtype, bits));
  }

  /** The bits of one stored value, by the name the hub gives its type. */
  predicate IsStored(name: string, bits: int) {
    || (bits == 64 && name in {"F64", "I64", "U64"})
    || (bits == 32 && name in {"F32", "I32", "U32"})
    || (bits == 16 && name in {"BF16", "F16", "I16", "U16"})
    || (bits == 8 && name in {"F8_E4M3", "F8_E5M2", "I8", "U8", "BOOL"})
    || (bits == 4 && name in {"F4", "NF4", "I4", "U4"})
  }

  lemma StorageIs(name: string, bits: int)
    requires IsStored(name, bits)
    ensures StorageBits(name) == bits
  {
    var wide := {"F64", "I64", "U64"};
    var single := {"F32", "I32", "U32"};
    var small := {"F8_E4M3", "F8_E5M2", "I8", "U8", "BOOL"};
    if bits == 32 {
      assert name !in wide;
    } else if bits == 16 {
      assert name !in wide;
      assert name !in single;
      assert name !in small;
    } else if bits == 8 {
      assert name !in wide;
      assert name !in single;
    } else if bits == 4 {
      assert name !in wide;
      assert name !in single;
      assert name !in small;
    }
  }

  /** What an unquantized model weighs: its count of values in the width of their type, or in 16 bits if not known. */
  lemma UnquantizedWeight(model: Model, cfg: Config, contextTokens: int, dtype: string, count: nat, bits: int)
    requires OneType(model, dtype, count) && DetectQuantization(model, cfg) == ""
    requires IsStored(ToUpper(dtype), bits) || (bits == 16 && forall b :: !IsStored(ToUpper(dtype), b))
    ensures Sized(model)
    ensures EstimateOf(model, cfg, contextTokens).value.weightBytes == count * bits / 8
  {
    OneTypeWeight(model, cfg, contextTokens, dtype, count);
    WeightOf(model, cfg, contextTokens);
    hide EstimateOf, DetectQuantization, ToUpper;
    WidthIs(ToUpper(dtype), bits);
    hide StorageBits, IsStored;
  }

  lemma WidthIs(name: string, bits: int)
    requires IsStored(name, bits) || (bits == 16 && forall b :: !IsStored(name, b))
    ensures StorageBits(name) == bits
  {
    if IsStored(name, bits) {
      StorageIs(name, bits);
    } else {
      assert !IsStored(name, 64) && !IsStored(name, 32) && !IsStored(name, 8) && !IsStored(name, 4);
    }
  }

  /** The width of a quantized weight: the configuration's, or the one that the scheme's name stands for. */
  predicate IsWidth(scheme: string, cfg: Config, bits: int) {
    if cfg.quantization.Some? && cfg.quantization.value.bits > 0 then bits == cfg.quantization.value.bits
    else
      || (bits == 4 && scheme in {"awq", "gptq", "nvfp4", "mxfp4", "nf4", "int4", "4bit", "bnb", "bitsandbytes"})
      || (bits == 8 && scheme in {"fp8", "int8", "8bit"})
  }

  lemma SchemeWidth(scheme: string, cfg: Config, bits: int)
    requires scheme != "" && IsWidth(scheme, cfg, bits)
    ensures QuantBits(scheme, cfg) == bits > 0
  {
    if !(cfg.quantization.Some? && cfg.quantization.value.bits > 0) && bits == 8 {
      var four := {"awq", "gptq", "nvfp4", "int4", "4bit", "nf4", "bnb", "bitsandbytes", "mxfp4"};
      assert scheme !in four;
    }
  }

  /** Packed weights of a quantized model, which the hub counts under an integer type, cost the scheme's width each. */
  lemma QuantizedWeight(model: Model, cfg: Config, contextTokens: int, dtype: string, count: nat, bits: int)
    requires OneType(model, dtype, count) && DetectQuantization(model, cfg) != ""
    requires IsWidth(DetectQuantization(model, cfg), cfg, bits)
    requires ToUpper(dtype) != "" && ToUpper(dtype)[0] in {'I', 'U'}
    ensures Sized(model)
    ensures EstimateOf(model, cfg, contextTokens).value.weightBytes == count * bits / 8
  {
    OneTypeWeight(model, cfg, contextTokens, dtype, count);
    WeightOf(model, cfg, contextTokens);
    hide EstimateOf, DetectQuantization, ToUpper, StorageBits;
    SchemeWidth(DetectQuantization(model, cfg), cfg, bits);
    hide QuantBits, IsWidth;
  }

  /** Its other tensors, and all of a quantized model whose width is not known, cost what they do unquantized. */
  lemma UnpackedWeight(model: Model, cfg: Config, contextTokens: int, dtype: string, count: nat, bits: int)
    requires OneType(model, dtype, count) && IsStored(ToUpper(dtype), bits)
    requires ToUpper(dtype)[0] in {'I', 'U'} ==> forall b :: b > 0 ==> !IsWidth(DetectQuantization(model, cfg), cfg, b)
    ensures Sized(model)
    ensures EstimateOf(model, cfg, contextTokens).value.weightBytes == count * bits / 8
  {
    OneTypeWeight(model, cfg, contextTokens, dtype, count);
    WeightOf(model, cfg, contextTokens);
    hide EstimateOf, DetectQuantization, ToUpper;
    StorageIs(ToUpper(dtype), bits);
    hide StorageBits, IsStored;
    NoWidth(DetectQuantization(model, cfg), cfg);
    hide QuantBits, IsWidth;
  }

  lemma NoWidth(scheme: string, cfg: Config)
    ensures (forall b :: b > 0 ==> !IsWidth(scheme, cfg, b)) ==> QuantBits(scheme, cfg) == 0
  {
    if forall b :: b > 0 ==> !IsWidth(scheme, cfg, b) {
      assert !IsWidth(scheme, cfg, 4) && !IsWidth(scheme, cfg, 8);
      if cfg.quantization.Some? && cfg.quantization.value.bits > 0 {
        assert IsWidth(scheme, cfg, cfg.quantization.value.bits);
      }
    }
  }

  lemma {:induction false} SumSplits(a: set<string>, b: set<string>, value: string -> int)
    requires a !! b
    ensures Sum(a + b, value) == Sum(a, value) + Sum(b, value)
    decreases |a|
  {
    if a == {} {
      assert a + b == b;
    } else {
      var k :| k in a;
      SumPick(a, value, k);
      SumPick(a + b, value, k);
      assert a + b - {k} == a - {k} + b;
      SumSplits(a - {k}, b, value);
    }
  }

  lemma {:induction false} SumAgrees(keys: set<string>, a: string -> int, b: string -> int)
    requires forall k :: k in keys ==> a(k) == b(k)
    ensures Sum(keys, a) == Sum(keys, b)
    decreases |keys|
  {
    SumIsMonotone(keys, a, b);
    SumIsMonotone(keys, b, a);
  }

  /** The weights of different tensor types add up, in bits, whatever their number and order. */
  lemma CensusesAdd(a: Census, b: Census, quantBits: int)
    requires a.Keys !! b.Keys
    ensures Sum((a + b).Keys, BitsOf(a + b, quantBits))
         == Sum(a.Keys, BitsOf(a, quantBits)) + Sum(b.Keys, BitsOf(b, quantBits))
    ensures Sum((a + b).Keys, CountOf(a + b)) == Sum(a.Keys, CountOf(a)) + Sum(b.Keys, CountOf(b))
  {
    hide Sum, BitsPerParam;
    assert (a + b).Keys == a.Keys + b.Keys;
    SumSplits(a.Keys, b.Keys, BitsOf(a + b, quantBits));
    SumSplits(a.Keys, b.Keys, CountOf(a + b));
    SumAgrees(a.Keys, BitsOf(a + b, quantBits), BitsOf(a, quantBits));
    SumAgrees(b.Keys, BitsOf(a + b, quantBits), BitsOf(b, quantBits));
    SumAgrees(a.Keys, CountOf(a + b), CountOf(a));
    SumAgrees(b.Keys, CountOf(a + b), CountOf(b));
  }

  // ----- detecting quantization -----

  /** The markers in the order in which a text is searched for them, and the scheme that each stands for. */
  const MARKERS := ["nvfp4", "awq", "gptq", "fp8", "int8", "int4", "4bit", "4-bit", "8bit", "8-bit", "bnb", "mxfp4"]
  const SCHEMES := ["nvfp4", "awq", "gptq", "fp8", "int8", "int4", "4bit", "4bit", "8bit", "8bit", "bnb", "mxfp4"]

  /** Marker `j` is in the text, in any letter case, and none before it in the list is. */
  predicate FirstIn(text: string, j: nat)
    requires j < 12
  {
    Contains(ToLower(text), MARKERS[j]) && forall i :: 0 <= i < j ==> !Contains(ToLower(text), MARKERS[i])
  }

  predicate Unmarked(text: string) {
    forall i :: 0 <= i < 12 ==> !Contains(ToLower(text), MARKERS[i])
  }

  /** Text `i` is the first that has a marker, and `j` is the first marker it has. */
  predicate FirstAt(texts: seq<string>, i: nat, j: nat)
    requires i < |texts| && j < 12
  {
    FirstIn(texts[i], j) && forall k :: 0 <= k < i ==> Unmarked(texts[k])
  }

  lemma {:induction false} FirstMarkerIs(text: string, markers: seq<string>, j: nat)
    requires j < |markers| && Contains(text, markers[j]) && forall i :: 0 <= i < j ==> !Contains(text, markers[i])
    ensures FirstMarker(text, markers) == Some(markers[j])
  {
    hide Contains;
    if j > 0 {
      FirstMarkerIs(text, markers[1..], j - 1);
    }
  }

  lemma {:induction false} MarkerOfFirst(texts: seq<string>, i: nat, j: nat)
    requires i < |texts| && j < 12 && FirstAt(texts, i, j)
    ensures MarkerOf(texts) == WithoutDashes(MARKERS[j])
  {
    hide Contains, WithoutDashes, ToLower;
    if i == 0 {
      FirstMarkerIs(ToLower(texts[0]), MARKERS, j);
    } else {
      assert Unmarked(texts[0]);
      MarkerOfFirst(texts[1..], i - 1, j);
    }
  }

  lemma {:induction false} MarkerOfNone(texts: seq<string>)
    requires forall k :: 0 <= k < |texts| ==> Unmarked(texts[k])
    ensures MarkerOf(texts) == ""
  {
    hide Contains, ToLower;
    if texts != [] {
      assert Unmarked(texts[0]);
      MarkerOfNone(texts[1..]);
    }
  }

  lemma {:induction false} DashRemoved(a: string, b: string)
    requires '-' !in a && '-' !in b
    ensures WithoutDashes(a) == a && WithoutDashes(a + "-" + b) == a + b
    decreases |b|, |a|
  {
    var s := a + "-" + b;
    if a == "" {
      assert s[1..] == b;
      if b != "" {
        DashRemoved(b, "");
      }
    } else {
      assert s[1..] == a[1..] + "-" + b;
      DashRemoved(a[1..], b);
    }
  }

  lemma SchemeOf(j: nat)
    requires j < 12
    ensures WithoutDashes(MARKERS[j]) == SCHEMES[j]
  {
    hide WithoutDashes;
    if j == 7 {
      DashRemoved("4", "bit");
      assert MARKERS[7] == "4" + "-" + "bit";
    } else if j == 9 {
      DashRemoved("8", "bit");
      assert MARKERS[9] == "8" + "-" + "bit";
    } else {
      assert '-' !in MARKERS[j];
      DashRemoved(MARKERS[j], "");
    }
  }

  /**
   * The scheme is the configuration's, in small letters; else that of the first marker in the first text that has one,
   * of the model's ID and its tags in order; else none.
   */
  lemma DetectionIsExact(model: Model, cfg: Config, i: nat, j: nat)
    requires i <= |model.tags| && j < 12
    ensures var texts := [model.id] + model.tags;
            var quantization := DetectQuantization(model, cfg);
            if cfg.quantization.Some? && cfg.quantization.value.scheme != ""
            then quantization == ToLower(cfg.quantization.value.scheme)
            else && (FirstAt(texts, i, j) ==> quantization == SCHEMES[j])
                 && ((forall k :: 0 <= k < |texts| ==> Unmarked(texts[k])) ==> quantization == "")
  {
    hide Contains, ToLower, MarkerOf, WithoutDashes;
    var texts := [model.id] + model.tags;
    SchemeOf(j);
    if FirstAt(texts, i, j) {
      MarkerOfFirst(texts, i, j);
    }
    if forall k :: 0 <= k < |texts| ==> Unmarked(texts[k]) {
      MarkerOfNone(texts);
    }
  }

  /** Whether an architecture is known does not depend on the letter case of its type; an empty type is not known. */
  lemma ArchitectureExample(model: Model, cfg: Config, contextTokens: int)
    requires Sized(model) && cfg.modelType in {"Qwen2", "LLAMA", ""}
    ensures EstimateOf(model, cfg, contextTokens).value.knownArchitecture <==> cfg.modelType != ""
  {
    hide DetectQuantization, KvCacheBytes, QuantBits, Sum, TruncDiv, ContextFor, ToLower;
    LowerOfTypes();
  }

  lemma LowerOfTypes()
    ensures ToLower("Qwen2") == "qwen2" && ToLower("LLAMA") == "llama" && ToLower("") == ""
  {
  }

  /** A model in plain figures: 7.6 billion 16-bit values and 28 layers need 16.4 GiB, and fit 24 GiB comfortably. */
  lemma EstimateExample(model: Model, cfg: Config)
    requires OneType(model, "BF16", 7_615_616_512) && DetectQuantization(model, cfg) == ""
    requires cfg.layers == 28 && cfg.attentionHeads == 28 && cfg.keyValueHeads == 4
    requires cfg.hiddenSize == 3584 && cfg.headDim == 0 && cfg.maxPositions == 32768
    ensures Sized(model)
    ensures var est := EstimateOf(model, cfg, 0).value;
            && est.weightBytes == 15_231_233_024
            && est.kvCacheBytes == 234_881_024
            && est.totalBytes == 17_613_597_696
            && Assess(est.totalBytes, 24_576) == Fits && Assess(est.totalBytes, 20_480) == Tight
            && Assess(est.totalBytes, 16_384) == TooBig
  {
    hide EstimateOf, DetectQuantization, Assess;
    assert ToUpper("BF16") == "BF16";
    UnquantizedWeight(model, cfg, 0, "BF16", 7_615_616_512, 16);
    ContextIsCapped(model, cfg, 0);
    CacheBytes(model, cfg, 0, 128);
    TotalIsSum(model, cfg, 0);
    AssessInIntegers(17_613_597_696, 24_576);
    AssessInIntegers(17_613_597_696, 20_480);
    AssessInIntegers(17_613_597_696, 16_384);
  }
}
