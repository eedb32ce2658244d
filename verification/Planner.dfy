/** VRAM planning: how much memory a model needs, and whether a GPU has it. */
module Planner {
  import opened Basics

  /** What the hub publishes about a model; parameter counts by tensor type when it publishes any. */
  datatype Model = Model(
    id: string,
    sha: string,
    gated: bool,
    downloads: int,
    tags: seq<string>,
    parameters: Option<Census>)

  /** Parameter counts by tensor type. */
  type Census = map<string, int>

  datatype Quantization = Quantization(scheme: string, bits: int)

  datatype Config = Config(
    architectures: seq<string>,
    modelType: string,
    layers: int,
    attentionHeads: int,
    keyValueHeads: int,
    hiddenSize: int,
    headDim: int,
    maxPositions: int,
    quantization: Option<Quantization>)

  datatype Estimate = Estimate(
    modelId: string,
    paramCount: int,
    quantization: string,
    contextTokens: int,
    weightBytes: int,
    kvCacheBytes: int,
    overheadBytes: int,
    totalBytes: int,
    architecture: string,
    knownArchitecture: bool,
    kvCacheUnknown: bool)

  datatype Verdict = Fits | Tight | TooBig

  datatype PlannerError = NoSizeData

  const DEFAULT_CONTEXT_TOKENS := 4096
  const FIXED_OVERHEAD_BYTES: int := 0x8000_0000
  const MIB: int := 0x10_0000

  const KNOWN_MODEL_TYPES := {
    "llama", "llama4", "mistral", "mixtral", "qwen2", "qwen2_moe", "qwen3", "qwen3_moe", "gemma", "gemma2", "gemma3",
    "gemma3_text", "phi", "phi3", "phimoe", "deepseek_v2", "deepseek_v3", "falcon", "gpt2", "gpt_neox", "gpt_bigcode",
    "starcoder2", "olmo", "olmo2", "granite", "internlm2", "baichuan", "chatglm", "glm4", "stablelm", "mpt", "opt",
    "bloom", "cohere", "command-r", "exaone", "minicpm", "nemotron", "smollm3"}

  const QUANT_MARKERS := ["nvfp4", "awq", "gptq", "fp8", "int8", "int4", "4bit", "4-bit", "8bit", "8-bit", "bnb",
      "mxfp4"]

  // ----- text -----

  function ToLowerChar(c: char): char {
    if 'A' <= c <= 'Z' then c - 'A' + 'a' else c
  }

  function ToUpperChar(c: char): char {
    if 'a' <= c <= 'z' then c - 'a' + 'A' else c
  }

  function ToLower(s: string): (r: string)
    ensures |r| == |s|
  {
    seq(|s|, i requires 0 <= i < |s| => ToLowerChar(s[i]))
  }

  function ToUpper(s: string): (r: string)
    ensures |r| == |s|
  {
    seq(|s|, i requires 0 <= i < |s| => ToUpperChar(s[i]))
  }

  predicate ContainsAt(s: string, part: string, i: int) {
    0 <= i <= |s| - |part| && s[i..i + |part|] == part
  }

  predicate Contains(s: string, part: string) {
    exists i | 0 <= i <= |s| :: ContainsAt(s, part, i)
  }

  /** One text contains another if it is that text with something before and after it. */
  lemma ContainsIsExact(s: string, part: string)
    ensures Contains(s, part) <==> exists before, after :: s == before + part + after
  {
    if Contains(s, part) {
      var i :| 0 <= i <= |s| && ContainsAt(s, part, i);
      assert s == s[..i] + part + s[i + |part|..];
    }
    if exists before, after :: s == before + part + after {
      var before, after :| s == before + part + after;
      assert s[|before|..|before| + |part|] == part;
      assert ContainsAt(s, part, |before|);
    }
  }

  /** Changing case: the 26 capital letters and the 26 small ones, 32 codes apart; every other character stays. */
  lemma CaseIsAscii(s: string, i: nat)
    requires i < |s|
    ensures var c := s[i] as int;
            && ToLower(s)[i] as int == (if 65 <= c <= 90 then c + 32 else c)
            && ToUpper(s)[i] as int == (if 97 <= c <= 122 then c - 32 else c)
  {
  }

  function WithoutDashes(s: string): string {
    if s == "" then "" else (if s[0] == '-' then "" else [s[0]]) + WithoutDashes(s[1..])
  }

  // ----- quantization -----

  /** The first marker, in their fixed order, that the text contains. */
  function FirstMarker(text: string, markers: seq<string>): (r: Option<string>)
    ensures r.Some? ==> r.value in markers && Contains(text, r.value)
    ensures r == None <==> forall m :: m in markers ==> !Contains(text, m)
  {
    if markers == [] then None
    else if Contains(text, markers[0]) then Some(markers[0])
    else FirstMarker(text, markers[1..])
  }

  function MarkerOf(texts: seq<string>): string {
    if texts == [] then ""
    else
      match FirstMarker(ToLower(texts[0]), QUANT_MARKERS)
      case Some(m) => WithoutDashes(m)
      case None => MarkerOf(texts[1..])
  }

  function DetectQuantization(model: Model, cfg: Config): string {
    if cfg.quantization.Some? && cfg.quantization.value.scheme != "" then ToLower(cfg.quantization.value.scheme)
    else MarkerOf([model.id] + model.tags)
  }

  /** Bits of an effective quantized weight, or 0 when the model is unquantized or the width unknown. */
  function QuantBits(quant: string, cfg: Config): (bits: int)
    ensures bits >= 0
  {
    if quant == "" then 0
    else if cfg.quantization.Some? && cfg.quantization.value.bits > 0 then cfg.quantization.value.bits
    else if quant in {"awq", "gptq", "nvfp4", "int4", "4bit", "nf4", "bnb", "bitsandbytes", "mxfp4"} then 4
    else if quant in {"fp8", "int8", "8bit"} then 8
    else 0
  }

  /** Bits of one parameter stored under a tensor type; 16 for a type that is not listed. */
  function StorageBits(dtype: string): (bits: int)
    ensures 0 < bits <= 64
  {
    if dtype in {"F64", "I64", "U64"} then 64
    else if dtype in {"F32", "I32", "U32"} then 32
    else if dtype in {"F8_E4M3", "F8_E5M2", "I8", "U8", "BOOL"} then 8
    else if dtype in {"F4", "NF4", "I4", "U4"} then 4
    else 16
  }

  predicate IsIntegerType(dtype: string) {
    dtype != "" && (dtype[0] == 'I' || dtype[0] == 'U')
  }

  /** What one parameter costs: integer tensors of a quantized model cost the scheme's width. */
  function BitsPerParam(dtype: string, quantBits: int): (bits: int)
    ensures quantBits >= 0 ==> bits > 0
  {
    if quantBits > 0 && IsIntegerType(ToUpper(dtype)) then quantBits else StorageBits(ToUpper(dtype))
  }

  // ----- sums over an unordered census -----

  /** The sum of `value` over a set of keys, in no particular order. */
  ghost function Sum(keys: set<string>, value: string -> int): int {
    if keys == {} then 0
    else
      var k :| k in keys;
      value(k) + Sum(keys - {k}, value)
  }

  /** Any key may be summed first. */
  lemma {:induction false} SumPick(keys: set<string>, value: string -> int, k: string)
    requires k in keys
    ensures Sum(keys, value) == value(k) + Sum(keys - {k}, value)
    decreases |keys|
  {
    var first :| first in keys && Sum(keys, value) == value(first) + Sum(keys - {first}, value);
    if first != k {
      SumPick(keys - {first}, value, k);
      SumPick(keys - {k}, value, first);
      assert keys - {first} - {k} == keys - {k} - {first};
    }
  }

  lemma {:induction false} SumIsMonotone(keys: set<string>, a: string -> int, b: string -> int)
    requires forall k :: k in keys ==> a(k) <= b(k)
    ensures Sum(keys, a) <= Sum(keys, b)
    decreases |keys|
  {
    if keys != {} {
      var k :| k in keys;
      SumPick(keys, a, k);
      SumPick(keys, b, k);
      SumIsMonotone(keys - {k}, a, b);
    }
  }

  function CountOf(parameters: Census): string -> int {
    k => if k in parameters then parameters[k] else 0
  }

  function BitsOf(parameters: Census, quantBits: int): string -> int {
    k => if k in parameters then parameters[k] * BitsPerParam(k, quantBits) else 0
  }

  // ----- the estimate -----

  function ContextFor(cfg: Config, contextTokens: int): (n: int) {
    var wanted := if contextTokens <= 0 then DEFAULT_CONTEXT_TOKENS else contextTokens;
    if cfg.maxPositions > 0 && wanted > cfg.maxPositions then cfg.maxPositions else wanted
  }

  function Heads(cfg: Config): int {
    if cfg.keyValueHeads == 0 then cfg.attentionHeads else cfg.keyValueHeads
  }

  function HeadDim(cfg: Config): int {
    if cfg.headDim == 0 && cfg.attentionHeads > 0 then TruncDiv(cfg.hiddenSize, cfg.attentionHeads) else cfg.headDim
  }

  /** Bytes of key/value cache for one token. */
  function KvBytesPerToken(cfg: Config): int {
    2 * cfg.layers * Heads(cfg) * HeadDim(cfg) * 2
  }

  function KvCacheBytes(cfg: Config, contextTokens: int): int {
    if cfg.layers == 0 || Heads(cfg) == 0 || HeadDim(cfg) == 0 then 0 else KvBytesPerToken(cfg) * contextTokens
  }

  /** What the estimate must be, whatever order the census is visited in. */
  ghost function EstimateOf(model: Model, cfg: Config, contextTokens: int): Result<Estimate, PlannerError> {
    if model.parameters.None? || model.parameters.value == map[] then Err(NoSizeData)
    else
      var parameters := model.parameters.value;
      var quantization := DetectQuantization(model, cfg);
      var context := ContextFor(cfg, contextTokens);
      var weight := TruncDiv(Sum(parameters.Keys, BitsOf(parameters, QuantBits(quantization, cfg))), 8);
      var kv := KvCacheBytes(cfg, context);
      Ok(Estimate(model.id, Sum(parameters.Keys, CountOf(parameters)), quantization, context, weight, kv,
                  FIXED_OVERHEAD_BYTES, weight + kv + FIXED_OVERHEAD_BYTES,
                  if |cfg.architectures| > 0 then cfg.architectures[0] else "",
                  ToLower(cfg.modelType) in KNOWN_MODEL_TYPES, kv == 0))
  }

  /** The loop visits the census in an arbitrary order; what it adds up does not depend on it. */
  method WeighCensus(parameters: Census, quantBits: int) returns (paramCount: int, weight: int)
    ensures paramCount == Sum(parameters.Keys, CountOf(parameters))
    ensures weight == Sum(parameters.Keys, BitsOf(parameters, quantBits))
  {
    paramCount, weight := 0, 0;
    var rest := parameters.Keys;
    while rest != {}
      invariant rest <= parameters.Keys
      invariant paramCount + Sum(rest, CountOf(parameters)) == Sum(parameters.Keys, CountOf(parameters))
      invariant weight + Sum(rest, BitsOf(parameters, quantBits)) == Sum(parameters.Keys, BitsOf(parameters, quantBits))
      decreases |rest|
    {
      var dtype :| dtype in rest;
      SumPick(rest, CountOf(parameters), dtype);
      SumPick(rest, BitsOf(parameters, quantBits), dtype);
      hide Sum, StorageBits;
      rest := rest - {dtype};
      var count := parameters[dtype];
      paramCount := paramCount + count;
      var bits := StorageBits(ToUpper(dtype));
      if quantBits > 0 && IsIntegerType(ToUpper(dtype)) {
        bits := quantBits;
      }
      assert bits == BitsPerParam(dtype, quantBits);
      weight := weight + count * bits;
    }
  }

  method EstimateModel(model: Model, cfg: Config, contextTokens: int) returns (r: Result<Estimate, PlannerError>)
    ensures r == EstimateOf(model, cfg, contextTokens)
  {
    hide Sum, DetectQuantization, KvCacheBytes, QuantBits, BitsOf, CountOf, TruncDiv;
    var context := contextTokens;
    if context <= 0 {
      context := DEFAULT_CONTEXT_TOKENS;
    }
    if cfg.maxPositions > 0 && context > cfg.maxPositions {
      context := cfg.maxPositions;
    }
    var quantization := DetectQuantization(model, cfg);
    if model.parameters.None? || |model.parameters.value| == 0 {
      return Err(NoSizeData);
    }
    var parameters := model.parameters.value;
    var paramCount, weight := WeighCensus(parameters, QuantBits(quantization, cfg));
    var weightBytes := TruncDiv(weight, 8);
    var kv := KvCacheBytes(cfg, context);
    r := Ok(Estimate(model.id, paramCount, quantization, context, weightBytes, kv, FIXED_OVERHEAD_BYTES,
                     weightBytes + kv + FIXED_OVERHEAD_BYTES,
                     if |cfg.architectures| > 0 then cfg.architectures[0] else "",
                     ToLower(cfg.modelType) in KNOWN_MODEL_TYPES, kv == 0));
  }

  /** The same census, or a larger one: no type is missing, and no count is smaller. */
  predicate NoSmaller(a: Census, b: Census) {
    a.Keys == b.Keys && forall k :: k in a ==> a[k] <= b[k]
  }

  lemma ScaleOrder(a: int, b: int, k: int)
    requires a <= b && k >= 0
    ensures a * k <= b * k && k * a <= k * b
  {
  }

  lemma TruncDivOrder(a: int, b: int, d: int)
    requires a <= b && d > 0
    ensures TruncDiv(a, d) <= TruncDiv(b, d)
  {
    if a >= 0 {
      DivOrder(a, b, d);
    } else if b < 0 {
      DivOrder(-b, -a, d);
    } else {
      DivOrder(0, -a, d);
      DivOrder(0, b, d);
    }
  }

  lemma DivOrder(a: int, b: int, d: int)
    requires 0 <= a <= b && d > 0
    ensures 0 <= a / d <= b / d
  {
    var q, r := a / d, b / d;
    assert a == q * d + a % d && b == r * d + b % d;
    if q > r {
      ScaleOrder(r + 1, q, d);
    }
  }

  /** The total grows with every parameter count, whatever the configuration says. */
  lemma TotalIsMonotone(model: Model, larger: Census, cfg: Config, context: int)
    requires model.parameters.Some? && model.parameters.value != map[] && NoSmaller(model.parameters.value, larger)
    ensures EstimateOf(model, cfg, context).Ok? && EstimateOf(model.(parameters := Some(larger)), cfg, context).Ok?
    ensures EstimateOf(model, cfg, context).value.totalBytes
         <= EstimateOf(model.(parameters := Some(larger)), cfg, context).value.totalBytes
  {
    var small := model.parameters.value;
    assert larger.Keys != {} by { assert small.Keys != {}; }
    var bits := QuantBits(DetectQuantization(model, cfg), cfg);
    forall k | k in small.Keys ensures BitsOf(small, bits)(k) <= BitsOf(larger, bits)(k) {
      ScaleOrder(small[k], larger[k], BitsPerParam(k, bits));
    }
    SumIsMonotone(small.Keys, BitsOf(small, bits), BitsOf(larger, bits));
    TruncDivOrder(Sum(small.Keys, BitsOf(small, bits)), Sum(small.Keys, BitsOf(larger, bits)), 8);
    var more := model.(parameters := Some(larger));
    assert DetectQuantization(more, cfg) == DetectQuantization(model, cfg);
    hide DetectQuantization;
  }

  /** The cache costs the same for every token. */
  lemma KvIsLinear(cfg: Config, context: int)
    ensures KvCacheBytes(cfg, context) == KvBytesPerToken(cfg) * context
  {
    if cfg.layers == 0 || Heads(cfg) == 0 || HeadDim(cfg) == 0 {
      assert KvBytesPerToken(cfg) == 0;
    }
  }

  /** Of the total only the cache depends on the context. */
  lemma TotalByContext(model: Model, cfg: Config, context: int) returns (rest: int)
    requires model.parameters.Some? && model.parameters.value != map[]
    ensures rest == TruncDiv(Sum(model.parameters.value.Keys,
                                 BitsOf(model.parameters.value, QuantBits(DetectQuantization(model, cfg), cfg))), 8)
                    + FIXED_OVERHEAD_BYTES
    ensures EstimateOf(model, cfg, context).Ok?
    ensures EstimateOf(model, cfg, context).value.totalBytes == rest + KvCacheBytes(cfg, ContextFor(cfg, context))
  {
    hide DetectQuantization, KvCacheBytes, QuantBits, Sum, TruncDiv, ContextFor, ToLower;
    rest := TruncDiv(Sum(model.parameters.value.Keys,
                         BitsOf(model.parameters.value, QuantBits(DetectQuantization(model, cfg), cfg))), 8)
            + FIXED_OVERHEAD_BYTES;
  }

  lemma ProductSign(k: int, n: int)
    requires n > 0
    ensures k * n >= 0 <==> k >= 0
  {
  }

  /**
   * Each further token of context that is used costs the same, so the total never shrinks with the context exactly if
   * what a token costs is not negative.
   */
  lemma ContextIsCounted(model: Model, cfg: Config, context: int, longer: int)
    requires model.parameters.Some? && model.parameters.value != map[]
    ensures EstimateOf(model, cfg, context).Ok? && EstimateOf(model, cfg, longer).Ok?
    ensures var a := EstimateOf(model, cfg, context).value.totalBytes;
            var b := EstimateOf(model, cfg, longer).value.totalBytes;
            var more := ContextFor(cfg, longer) - ContextFor(cfg, context);
            b - a == KvBytesPerToken(cfg) * more && (more > 0 ==> (a <= b <==> KvBytesPerToken(cfg) >= 0))
  {
    hide DetectQuantization, EstimateOf, KvBytesPerToken, KvCacheBytes, QuantBits, Sum, TruncDiv, ContextFor;
    var m, n := ContextFor(cfg, context), ContextFor(cfg, longer);
    var k := KvBytesPerToken(cfg);
    var r := TotalByContext(model, cfg, context);
    var r' := TotalByContext(model, cfg, longer);
    KvIsLinear(cfg, m);
    KvIsLinear(cfg, n);
    assert k * n - k * m == k * (n - m);
    if n > m {
      ProductSign(k, n - m);
    }
  }

  // ----- the verdict, and the second gate -----

  /** The share of VRAM the runtime will claim, and the share of that which is comfortable. */
  const UTILIZATION: real := 9.0 / 10.0
  const COMFORT: real := 85.0 / 100.0

  function Assess(totalBytes: int, vramMiB: int): Verdict {
    var usable := vramMiB as real * MIB as real * UTILIZATION;
    if totalBytes as real <= usable * COMFORT then Fits
    else if totalBytes as real <= usable then Tight
    else TooBig
  }

  /** The verdict in whole numbers. */
  lemma AssessInIntegers(totalBytes: int, vramMiB: int)
    ensures Assess(totalBytes, vramMiB) == Fits <==> 200 * totalBytes <= 153 * vramMiB * 1_048_576
    ensures vramMiB >= 0 || totalBytes >= 0
        ==> (Assess(totalBytes, vramMiB) == TooBig <==> 10 * totalBytes > 9 * vramMiB * 1_048_576)
  {
  }

  function Rank(v: Verdict): nat {
    match v case Fits => 0 case Tight => 1 case TooBig => 2
  }

  /** The verdict never improves with size, nor worsens with VRAM. */
  lemma VerdictIsMonotone(total: int, larger: int, vram: int, more: int)
    requires total <= larger && vram <= more
    ensures Rank(Assess(total, vram)) <= Rank(Assess(larger, vram))
    ensures Rank(Assess(total, more)) <= Rank(Assess(total, vram))
  {
    AssessInIntegers(total, vram);
    AssessInIntegers(larger, vram);
    AssessInIntegers(total, more);
  }

  /** What preflight demands of the GPU for a model of this size. */
  function RequiredVramMiB(totalBytes: int): int {
    TruncDiv(TruncDiv(totalBytes * 10, 9) + MIB - 1, MIB)
  }

  lemma CeilingIsAtMost(x: int, d: int, v: int)
    requires x >= 0 && d > 0
    ensures (x + d - 1) / d <= v <==> x <= v * d
  {
    var q := (x + d - 1) / d;
    assert x + d - 1 == q * d + (x + d - 1) % d;
    if q <= v {
      ScaleOrder(q, v, d);
    } else {
      ScaleOrder(v + 1, q, d);
    }
  }

  /**
   * Gate agreement: preflight's integer check passes exactly when ten times the total is at most nine times the VRAM
   * plus eight, so whatever is not TOO_BIG passes it, and whatever passes it would not be TOO_BIG if it were one byte
   * smaller.
   */
  lemma GatesAgree(totalBytes: int, vramMiB: int)
    requires totalBytes >= 0 || vramMiB >= 0
    ensures RequiredVramMiB(totalBytes) <= vramMiB <==> 10 * totalBytes <= 9 * vramMiB * 1_048_576 + 8
    ensures Assess(totalBytes, vramMiB) != TooBig ==> RequiredVramMiB(totalBytes) <= vramMiB
    ensures RequiredVramMiB(totalBytes) <= vramMiB ==> Assess(totalBytes - 1, vramMiB) != TooBig
  {
    if totalBytes >= 0 {
      CeilingIsAtMost(totalBytes * 10 / 9, MIB, vramMiB);
    }
    AssessInIntegers(totalBytes, vramMiB);
    AssessInIntegers(totalBytes - 1, vramMiB);
  }

  /** The gates do differ: one MiB of VRAM passes preflight for a total that the verdict calls TOO_BIG. */
  lemma GatesDifferByLessThanAByte()
    ensures Assess(943719, 1) == TooBig && RequiredVramMiB(943719) == 1 && Assess(943718, 1) != TooBig
  {
    AssessInIntegers(943719, 1);
    AssessInIntegers(943718, 1);
  }
}
