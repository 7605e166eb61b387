/**
 * The part of the LuxRays property bag that the bake engine reads: named
 * properties holding lists of values, lookups with a default, typed reads,
 * and the splitting of dotted names into fields.
 */
module Properties {

  import opened Wrappers
  import opened CTypes
  import Decimal

  /** One value of a property: text or an unsigned number. */
  datatype Value = Text(s: string) | UInt(n: uint32)

  /** A configuration: property name to its list of values. */
  type Properties = map<string, seq<Value>>

  datatype PropertyError =
    | OutOfBound(name: string, index: nat)    // Get<T>(i) past the last value
    | NotANumber(name: string, text: string)  // Get<u_int>() of text that is not a number

  /** `cfg.Get(Property(name, defaults))`: the stored values, or the defaults when undefined. */
  function GetOr(cfg: Properties, name: string, defaults: seq<Value>): (r: seq<Value>)
    ensures name in cfg ==> r == cfg[name]
    ensures name !in cfg ==> r == defaults
  {
    if name in cfg then cfg[name] else defaults
  }

  /** `Get<string>(i)`: value i as text; numbers are printed in decimal. */
  function GetString(name: string, values: seq<Value>, i: nat): (r: Result<string, PropertyError>)
    ensures r.Failure? <==> i >= |values|
    ensures i < |values| && values[i].Text? ==> r == Success(values[i].s)
    ensures i < |values| && values[i].UInt? ==> r == Success(Decimal.ToText(values[i].n as nat))
  {
    if i >= |values| then Failure(OutOfBound(name, i))
    else match values[i]
      case Text(s) => Success(s)
      case UInt(n) => Success(Decimal.ToText(n as nat))
  }

  /** `Get<u_int>()`: the first value as a number; text must be decimal digits of a 32-bit value. */
  function GetUInt(name: string, values: seq<Value>): (r: Result<uint32, PropertyError>)
    ensures |values| == 0 ==> r.Failure?
    ensures |values| > 0 && values[0].UInt? ==> r == Success(values[0].n)
    ensures |values| > 0 && values[0].Text? ==>
      (r.Success? <==> (Decimal.Parse(values[0].s).Some? && Decimal.Parse(values[0].s).value < UINT32_MODULUS))
  {
    if |values| == 0 then Failure(OutOfBound(name, 0))
    else match values[0]
      case UInt(n) => Success(n)
      case Text(s) =>
        match Decimal.Parse(s)
        case Some(n) => if n < UINT32_MODULUS then Success(n as uint32) else Failure(NotANumber(name, s))
        case None => Failure(NotANumber(name, s))
  }

  /** The text of a dotted name split at every '.', as `boost::split` does it. */
  function Fields(name: string): (r: seq<string>)
    ensures |r| >= 1
    ensures forall k :: 0 <= k < |r| ==> '.' !in r[k]
  {
    if |name| == 0 then [""]
    else
      var rest := Fields(name[1..]);
      if name[0] == '.' then [""] + rest
      else [[name[0]] + rest[0]] + rest[1..]
  }

  /** `Property::ExtractField(name, index)`: field `index` of the dotted name, or "" past the last one. */
  function ExtractField(name: string, index: nat): (r: string)
    ensures '.' !in r
  {
    var fs := Fields(name);
    if index < |fs| then fs[index] else ""
  }

  /** Joining the fields with '.' gives the name back. */
  function Join(fs: seq<string>): string
    requires |fs| >= 1
  {
    if |fs| == 1 then fs[0] else fs[0] + "." + Join(fs[1..])
  }

  lemma {:induction false} JoinFields(name: string)
    ensures Join(Fields(name)) == name
  {
    if |name| > 0 {
      JoinFields(name[1..]);
      var rest := Fields(name[1..]);
      if name[0] == '.' {
        assert Fields(name) == [""] + rest;
        assert Join(Fields(name)) == "" + "." + Join(rest);
      } else {
        JoinHead(name[0], rest);
      }
    }
  }

  lemma JoinHead(c: char, rest: seq<string>)
    requires |rest| >= 1
    ensures Join([[c] + rest[0]] + rest[1..]) == [c] + Join(rest)
  {
    if |rest| > 1 {
      JoinHeadLonger(c, rest);
    }
  }

  lemma JoinHeadLonger(c: char, rest: seq<string>)
    requires |rest| >= 2
    ensures Join([[c] + rest[0]] + rest[1..]) == [c] + Join(rest)
  {
    var fs := [[c] + rest[0]] + rest[1..];
    assert fs[0] == [c] + rest[0] && fs[1..] == rest[1..];
    JoinUnfold(fs);
    JoinUnfold(rest);
    ConcatAssoc([c], rest[0], ".", Join(rest[1..]));
  }

  lemma JoinUnfold(fs: seq<string>)
    requires |fs| >= 2
    ensures Join(fs) == fs[0] + "." + Join(fs[1..])
  {
  }

  lemma ConcatAssoc(a: string, b: string, d: string, e: string)
    ensures ((a + b) + d) + e == a + ((b + d) + e)
  {
  }

  /** The fields of "a.b.c" for dot-free a, b, c: ExtractField picks out c at index 2. */
  lemma {:induction false} FieldsOfThree(a: string, b: string, c: string)
    requires '.' !in a && '.' !in b && '.' !in c
    ensures Fields(a + "." + b + "." + c) == [a, b, c]
  {
    assert a + "." + b + "." + c == a + "." + (b + "." + c);
    FieldsAppend(a, b + "." + c);
    FieldsAppend(b, c);
    FieldsNoDot(c);
  }

  lemma {:induction false} FieldsNoDot(s: string)
    requires '.' !in s
    ensures Fields(s) == [s]
  {
    if |s| > 0 {
      assert '.' !in s[1..];
      FieldsNoDot(s[1..]);
      assert [s[0]] + s[1..] == s;
    }
  }

  lemma {:induction false} FieldsAppend(a: string, rest: string)
    requires '.' !in a
    ensures Fields(a + "." + rest) == [a] + Fields(rest)
  {
    if |a| == 0 {
      assert a + "." + rest == "." + rest;
      assert ("." + rest)[1..] == rest;
    } else {
      var s := a + "." + rest;
      assert s[1..] == a[1..] + "." + rest;
      assert '.' !in a[1..];
      FieldsAppend(a[1..], rest);
      assert [a[0]] + a[1..] == a;
    }
  }
}
