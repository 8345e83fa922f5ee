/**
 * Fakers of two-dimensional (timestamp, value) series. A `TwoD` generator
 * stores its timestamps and a column name resolved once at construction;
 * `Simulate` returns the table built from a dict of two columns, one drawn
 * value per timestamp.
 */
module Fakers {
  import opened Wrappers
  import opened Decimal
  import opened Faker

  /** The sampling law of a variant; the draws themselves are a parameter of `Simulate`. */
  datatype Distribution =
    | LogNormal(mean: real, sigma: real)
    | Normal(loc: real, scale: real)

  /** The concrete subclasses of `TwoD`. */
  datatype Variant = Lactate | HeartRate {

    /** The variant's fixed `conceptkeys` property; every variant names its concept. */
    function Keys(): (k: ConceptKeys)
      ensures k.conceptId > 0 && k.shortName.Some? && k.fullySpecifiedName.Some?
    {
      match this
      case Lactate => ConceptKeys(3047181, Some("lactate"), Some("Lactate [Moles/volume] in Blood"))
      case HeartRate => ConceptKeys(4239408, Some("hrate"), Some("Heart rate (observable entity)"))
    }

    /** The law each value is drawn from: a standard log-normal, or a normal of mean 90 and deviation 15. */
    function Law(): (d: Distribution)
      ensures d.LogNormal? ==> d.sigma > 0.0
      ensures d.Normal? ==> d.scale > 0.0
    {
      match this
      case Lactate => LogNormal(0.0, 1.0)
      case HeartRate => Normal(90.0, 15.0)
    }
  }

  /**
   * The column-name rule: an explicit override wins, else the concept's short
   * name, else the decimal numeral of the concept id.
   */
  function ResolveColname(colname: Option<string>, keys: ConceptKeys): (name: string)
    ensures colname.Some? ==> name == colname.value
    ensures colname.None? && keys.shortName.Some? ==> name == keys.shortName.value
    ensures colname.None? && keys.shortName.None? ==> ParseDecimal(name) == Some(keys.conceptId)
  {
    if colname.Some? then colname.value
    else if keys.shortName.Some? then keys.shortName.value
    else DecimalRoundTrip(keys.conceptId); DecimalString(keys.conceptId)
  }

  /** Resolving an already resolved name changes nothing. */
  lemma ResolveIdempotent(colname: Option<string>, keys: ConceptKeys)
    ensures ResolveColname(Some(ResolveColname(colname, keys)), keys) == ResolveColname(colname, keys)
  {
  }

  /** A name taken from the concept id can never be "timestamp". */
  lemma FallbackNotTimestamp(keys: ConceptKeys)
    requires keys.shortName.None?
    ensures ResolveColname(None, keys) != "timestamp"
  {
  }

  /** Names taken from concept ids tell the concepts apart. */
  lemma FallbackInjective(k1: ConceptKeys, k2: ConceptKeys)
    requires k1.shortName.None? && k2.shortName.None?
    ensures ResolveColname(None, k1) == ResolveColname(None, k2) ==> k1.conceptId == k2.conceptId
  {
  }

  /** Each variant's default column name is its short name, and never "timestamp". */
  lemma DefaultColumnName(v: Variant)
    ensures ResolveColname(None, v.Keys()) == (if v.Lactate? then "lactate" else "hrate")
    ensures ResolveColname(None, v.Keys()) != "timestamp"
  {
  }

  /** A column of the table handed to the data-frame constructor. */
  datatype Column<T> = TimeColumn(times: seq<T>) | ValueColumn(values: seq<real>) {
    function Length(): nat {
      match this
      case TimeColumn(t) => |t|
      case ValueColumn(v) => |v|
    }
  }

  /** A table as the dict of named columns it is built from. */
  type Table<T> = map<string, Column<T>>

  /**
   * The dict literal `{'timestamp': ts, name: vals}`: the later key wins, so a
   * value column named "timestamp" replaces the timestamps.
   */
  function FromDict<T>(ts: seq<T>, name: string, vals: seq<real>): (table: Table<T>)
    ensures table.Keys == {"timestamp", name}
    ensures table[name] == ValueColumn(vals)
    ensures name != "timestamp" ==> table["timestamp"] == TimeColumn(ts)
  {
    map["timestamp" := TimeColumn(ts)][name := ValueColumn(vals)]
  }

  /** The table has two columns exactly when the value column is not named "timestamp". */
  lemma FromDictTwoColumns<T>(ts: seq<T>, name: string, vals: seq<real>)
    ensures |FromDict(ts, name, vals)| == 2 <==> name != "timestamp"
    ensures name == "timestamp" ==> "timestamp" in FromDict(ts, name, vals) && FromDict(ts, name, vals)["timestamp"].ValueColumn?
  {
  }

  /** `n` successive draws from `law`, one per timestamp. */
  function Draws(law: Distribution, n: nat, draw: (Distribution, nat) -> real): (vals: seq<real>)
    ensures |vals| == n
    ensures forall i :: 0 <= i < n ==> vals[i] == draw(law, i)
  {
    seq(n, i requires 0 <= i => draw(law, i))
  }

  /** A two-dimensional series faker, one object per variant instance. */
  class TwoD<T> {
    const kind: Variant
    var ts: seq<T>
    var colname: Option<string>

    /** After construction the column name is always resolved. */
    ghost predicate Valid()
      reads this
    {
      colname.Some?
    }

    /** `_gen_colname` on the object's current state. */
    function GenColname(): (name: string)
      reads this
      ensures colname.Some? ==> name == colname.value
    {
      ResolveColname(colname, kind.Keys())
    }

    constructor (kind: Variant, ts: seq<T>, colname: Option<string>)
      ensures Valid()
      ensures this.kind == kind && this.ts == ts
      ensures this.colname == Some(ResolveColname(colname, kind.Keys()))
      ensures GenColname() == this.colname.value
    {
      this.kind := kind;
      this.ts := ts;
      this.colname := colname;
      new;
      this.colname := Some(GenColname());
    }

    /**
     * One value per timestamp, drawn from the variant's law (`draw(law, i)` is
     * the i-th draw), in a table keyed by "timestamp" and the resolved name.
     * `cadence` is accepted and not used.
     */
    function Simulate(cadence: Option<string>, draw: (Distribution, nat) -> real): (table: Table<T>)
      reads this
      requires Valid()
      ensures table.Keys == {"timestamp", colname.value}
      ensures forall c :: c in table ==> table[c].Length() == |ts|
      ensures table[colname.value].ValueColumn? && |table[colname.value].values| == |ts|
      ensures forall i :: 0 <= i < |ts| ==> table[colname.value].values[i] == draw(kind.Law(), i)
      ensures colname.value != "timestamp" ==> table["timestamp"] == TimeColumn(ts)
    {
      FromDict(ts, colname.value, Draws(kind.Law(), |ts|, draw))
    }

    /** The output does not depend on `cadence`. */
    lemma SimulateIgnoresCadence(c1: Option<string>, c2: Option<string>, draw: (Distribution, nat) -> real)
      requires Valid()
      ensures Simulate(c1, draw) == Simulate(c2, draw)
    {
    }

    /** A faker with its default column name always yields both columns. */
    lemma DefaultHasTwoColumns(draw: (Distribution, nat) -> real)
      requires Valid() && colname == Some(ResolveColname(None, kind.Keys()))
      ensures |Simulate(None, draw)| == 2
      ensures Simulate(None, draw)["timestamp"] == TimeColumn(ts)
    {
    }
  }
}
