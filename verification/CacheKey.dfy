/** The text a cache key is the digest of: labelled, length-prefixed fields. */
module CacheKey {
  import opened Decimal

  // One appended field.
  function Field(name: string, value: string): string {
    name + ":" + Print(|value|) + ":" + value + "\n"
  }

  lemma HeadOf(a: string, x: string)
    requires AllDigits(a)
    ensures IsDigit((a + ":" + x)[0]) <==> a != ""
    ensures a != "" ==> (a + ":" + x)[0] == a[0] && (a + ":" + x)[1..] == a[1..] + ":" + x
    ensures (a + ":" + x)[|a| + 1..] == x
  {
  }

  lemma {:induction false} SameDigits(a: string, b: string, x: string, y: string)
    requires AllDigits(a) && AllDigits(b) && a + ":" + x == b + ":" + y
    ensures a == b && x == y
  {
    HeadOf(a, x);
    HeadOf(b, y);
    if a != "" {
      SameDigits(a[1..], b[1..], x, y);
      assert a == [a[0]] + a[1..] && b == [b[0]] + b[1..];
    }
  }

  lemma Regroup(a: string, b: string, c: string, d: string)
    ensures a + b + c + d == a + (b + c + d)
  {
  }

  lemma FieldShape(name: string, v: string, x: string)
    ensures Field(name, v) + x == name + ":" + (Print(|v|) + ":" + (v + "\n" + x))
  {
    var digits := Print(|v|);
    Regroup(name + ":" + digits + ":", v, "\n", x);
    Regroup(name + ":", digits, ":", v + "\n" + x);
  }

  lemma SameTail(name: string, a: string, b: string)
    requires name + ":" + a == name + ":" + b
    ensures a == b
  {
    assert (name + ":" + a)[|name| + 1..] == a;
    assert (name + ":" + b)[|name| + 1..] == b;
  }

  lemma SameValue(v: string, w: string, x: string, y: string)
    requires v + "\n" + x == w + "\n" + y && |v| == |w|
    ensures v == w && x == y
  {
    assert (v + "\n" + x)[..|v|] == v && (w + "\n" + y)[..|w|] == w;
    assert (v + "\n" + x)[|v| + 1..] == x && (w + "\n" + y)[|w| + 1..] == y;
  }

  /** A field under a known name can be read back, whatever follows it. */
  lemma FieldReadBack(name: string, v: string, w: string, x: string, y: string)
    requires Field(name, v) + x == Field(name, w) + y
    ensures v == w && x == y
  {
    var a, b := v + "\n" + x, w + "\n" + y;
    PrintValue(|v|);
    PrintValue(|w|);
    hide Print, Value, Field;
    FieldShape(name, v, x);
    FieldShape(name, w, y);
    SameTail(name, Print(|v|) + ":" + a, Print(|w|) + ":" + b);
    SameDigits(Print(|v|), Print(|w|), a, b);
    SameValue(v, w, x, y);
  }

  function Fields(names: seq<string>, values: seq<string>): string
    requires |names| == |values|
  {
    if names == [] then "" else Field(names[0], values[0]) + Fields(names[1..], values[1..])
  }

  lemma {:induction false} FieldsInjective(names: seq<string>, v: seq<string>, w: seq<string>)
    requires |names| == |v| == |w| && Fields(names, v) == Fields(names, w)
    ensures v == w
  {
    if names != [] {
      FieldReadBack(names[0], v[0], w[0], Fields(names[1..], v[1..]), Fields(names[1..], w[1..]));
      FieldsInjective(names[1..], v[1..], w[1..]);
      assert v == [v[0]] + v[1..] && w == [w[0]] + w[1..];
    }
  }

  // Everything a compiled module depends on.
  datatype BuildInputs = BuildInputs(
    cacheFormat: string, resourcePath: string, source: string, userTree: string, sdkTree: string,
    adapter: string, abi: string, zigExecutable: string, zigVersion: string, platform: string,
    architecture: string, zigTarget: string, optimization: string)

  const NAMES := ["cache_format", "resource_path", "source", "user_tree", "sdk_tree", "adapter", "abi",
                  "zig_executable", "zig_version", "platform", "architecture", "zig_target", "optimization"]

  function Values(b: BuildInputs): (v: seq<string>)
    ensures |v| == 13
  {
    [b.cacheFormat, b.resourcePath, b.source, b.userTree, b.sdkTree, b.adapter, b.abi,
     b.zigExecutable, b.zigVersion, b.platform, b.architecture, b.zigTarget, b.optimization]
  }

  function Identity(b: BuildInputs): string {
    Fields(NAMES, Values(b))
  }

  /** Equal identity texts mean equal build inputs, field by field. */
  lemma IdentityInjective(b: BuildInputs, c: BuildInputs)
    requires Identity(b) == Identity(c)
    ensures b == c
  {
    hide Fields;
    FieldsInjective(NAMES, Values(b), Values(c));
    var v, w := Values(b), Values(c);
    assert forall k: nat | k < 13 :: v[k] == w[k];
  }
}
