/** Business-scoped snowflake generators (`snowflake.BusinessGenerator`): an id source for one
    business type with an optional text prefix. The snowflake node itself is a library: its
    successive ids are given as `stream`, which the library promises to be strictly
    increasing, and the generator counts how many it has drawn. */
module BusinessGenerator {
  import opened Wrappers
  import opened StrUtil

  /** `BusinessConfig`. */
  datatype BusinessConfig = BusinessConfig(businessType: string, machineId: int, prefix: string)

  /** The largest node number of the snowflake library with its default 10 node bits. */
  const NodeMax: int := 1023

  /** The library's strictly increasing id sequence. */
  ghost predicate Increasing(stream: nat -> int) {
    forall i: nat, j: nat :: i < j ==> stream(i) < stream(j)
  }

  /** The ids drawn from position `from` on, `count` of them. */
  function Draws(stream: nat -> int, from: nat, count: nat): (r: seq<int>)
    ensures |r| == count
    ensures forall i :: 0 <= i < count ==> r[i] == stream(from + i)
  {
    seq(count, i requires 0 <= i < count => stream(from + i))
  }

  /** `fmt.Sprintf("%s%d", prefix, id)`. */
  function Prefixed(prefix: string, id: int): string {
    prefix + IntToString(id)
  }

  /** `GeneratePrefixID`'s text: the prefix when there is one, then the decimal id. */
  function PrefixText(prefix: string, id: int): (r: string)
    ensures HasPrefix(r, prefix)
  {
    if prefix != "" then Prefixed(prefix, id) else IntToString(id)
  }

  /** The two spellings of the prefixed id agree, so a prefixed batch holds exactly what
      single prefixed draws give. */
  lemma PrefixTextIsPrefixed(prefix: string, id: int)
    ensures PrefixText(prefix, id) == Prefixed(prefix, id)
  {
  }

  /** Different ids with one prefix give different texts. */
  lemma PrefixedInjective(prefix: string, a: int, b: int)
    requires a != b
    ensures Prefixed(prefix, a) != Prefixed(prefix, b)
  {
    if Prefixed(prefix, a) == Prefixed(prefix, b) {
      assert Prefixed(prefix, a)[|prefix|..] == IntToString(a);
      assert Prefixed(prefix, b)[|prefix|..] == IntToString(b);
      IntToStringInjective(a, b);
    }
  }

  /** A batch from an increasing stream is strictly increasing, so its ids are unique. */
  lemma DrawsIncreasing(stream: nat -> int, from: nat, count: nat)
    requires Increasing(stream)
    ensures forall i, j :: 0 <= i < j < count ==> Draws(stream, from, count)[i] < Draws(stream, from, count)[j]
  {
    forall i, j | 0 <= i < j < count
      ensures Draws(stream, from, count)[i] < Draws(stream, from, count)[j]
    {
      assert stream(from + i) < stream(from + j);
    }
  }

  /** `NewGenerator`'s check: the snowflake node number must be within 0..NodeMax. */
  function NodeCheck(machineId: int): (r: Outcome)
    ensures r.Pass? <==> 0 <= machineId <= NodeMax
  {
    if machineId < 0 || machineId > NodeMax then Fail("Node number must be between 0 and " + IntToString(NodeMax))
    else Pass
  }

  function SnowflakeError(msg: string): string {
    "failed to create snowflake: " + msg
  }

  /** `NewBusinessGenerator`: a node number out of range is an error. */
  method NewBusinessGenerator(config: BusinessConfig, stream: nat -> int) returns (r: Result<BusinessGenerator>)
    ensures NodeCheck(config.machineId).Fail? ==>
      r == Err(SnowflakeError(NodeCheck(config.machineId).msg))
    ensures NodeCheck(config.machineId).Pass? ==>
      && r.Ok? && fresh(r.value)
      && r.value.businessType == config.businessType && r.value.prefix == config.prefix
      && r.value.stream == stream && r.value.drawn == 0
  {
    var check := NodeCheck(config.machineId);
    if check.Fail? {
      return Err(SnowflakeError(check.msg));
    }
    var g := new BusinessGenerator(config, stream);
    return Ok(g);
  }

  class BusinessGenerator {
    const businessType: string
    const prefix: string
    const stream: nat -> int
    /** How many ids the node has produced. */
    var drawn: nat

    /** `NewBusinessGenerator` once the node check has passed. */
    constructor (config: BusinessConfig, stream: nat -> int)
      requires NodeCheck(config.machineId).Pass?
      ensures businessType == config.businessType && prefix == config.prefix
      ensures this.stream == stream && drawn == 0
    {
      businessType := config.businessType;
      prefix := config.prefix;
      this.stream := stream;
      drawn := 0;
    }

    /** `GenerateID`: the node's next id. */
    method GenerateID() returns (id: int)
      modifies this
      ensures id == stream(old(drawn)) && drawn == old(drawn) + 1
    {
      id := stream(drawn);
      drawn := drawn + 1;
    }

    /** `GeneratePrefixID`: the next id, written after the prefix when there is one. */
    method GeneratePrefixID() returns (s: string)
      modifies this
      ensures s == PrefixText(prefix, stream(old(drawn))) && drawn == old(drawn) + 1
    {
      var id := GenerateID();
      if prefix != "" {
        return Prefixed(prefix, id);
      }
      return IntToString(id);
    }

    /** `GenerateBatch`: a positive count gives that many next ids, in order. */
    method GenerateBatch(count: int) returns (r: Result<array<int>>)
      modifies this
      ensures count <= 0 ==> r == Err("count must be positive") && drawn == old(drawn)
      ensures count > 0 ==> r.Ok? && fresh(r.value) && r.value[..] == Draws(stream, old(drawn), count)
      ensures count > 0 ==> drawn == old(drawn) + count
    {
      if count <= 0 {
        return Err("count must be positive");
      }
      var ids := new int[count];
      for i := 0 to count
        invariant drawn == old(drawn) + i
        invariant ids[..i] == Draws(stream, old(drawn), i)
      {
        var id := GenerateID();
        ids[i] := id;
        assert ids[..i + 1] == ids[..i] + [id];
      }
      assert ids[..] == ids[..count];
      return Ok(ids);
    }

    /** `GeneratePrefixBatch`: the same count rule; every id is written after the prefix. */
    method GeneratePrefixBatch(count: int) returns (r: Result<array<string>>)
      modifies this
      ensures count <= 0 ==> r == Err("count must be positive") && drawn == old(drawn)
      ensures count > 0 ==> r.Ok? && fresh(r.value) && r.value.Length == count
      ensures count > 0 ==> forall i :: 0 <= i < count ==> r.value[i] == Prefixed(prefix, stream(old(drawn) + i))
      ensures count > 0 ==> drawn == old(drawn) + count
    {
      if count <= 0 {
        return Err("count must be positive");
      }
      var ids := new string[count];
      for i := 0 to count
        invariant drawn == old(drawn) + i
        invariant forall k :: 0 <= k < i ==> ids[k] == Prefixed(prefix, stream(old(drawn) + k))
      {
        var id := GenerateID();
        ids[i] := Prefixed(prefix, id);
      }
      return Ok(ids);
    }

    /** `GetBusinessType`. */
    function GetBusinessType(): (t: string)
      ensures t == businessType
    {
      businessType
    }
  }
}
