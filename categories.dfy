/**
 * The category table: an ordered list of records, one per category name,
 * created on first use (`getcat`) and only ever cleared as a whole.
 */
module Categories {
  import opened Wrappers

  /** One row of the table: a name, the seconds accumulated under it and their display text. */
  datatype Category = Category(catname: string, cattime: real, cattimeStr: string)

  /** Renders a number of seconds for display (the days-hours-minutes-seconds formatter). */
  type Formatter = real -> string

  /** The table's invariant: names are keys. */
  ghost predicate UniqueNames(cats: seq<Category>) {
    forall i, j :: 0 <= i < j < |cats| ==> cats[i].catname != cats[j].catname
  }

  /** The position of the first record named `name`, if there is one. */
  function Find(cats: seq<Category>, name: string): (r: Option<nat>)
    ensures r.Some? ==> r.value < |cats| && cats[r.value].catname == name
    ensures r.Some? ==> forall j :: 0 <= j < r.value ==> cats[j].catname != name
    ensures r.None? <==> forall j :: 0 <= j < |cats| ==> cats[j].catname != name
  {
    if |cats| == 0 then None
    else if cats[0].catname == name then Some(0)
    else
      match Find(cats[1..], name)
      case Some(i) => Some(i + 1)
      case None => None
  }

  /** A record just created: zero seconds and the display text of zero. */
  function NewCategory(name: string, fmt: Formatter): Category {
    Category(name, 0.0, fmt(0.0))
  }

  /**
   * Lookup-or-create: the table afterwards and the position of the record
   * named `name` in it.
   */
  function GetOrCreate(cats: seq<Category>, name: string, fmt: Formatter): (r: (seq<Category>, nat))
    ensures |cats| <= |r.0| <= |cats| + 1 && r.0[..|cats|] == cats
    ensures |r.0| == |cats| <==> Find(cats, name).Some?
    ensures r.1 < |r.0| && Find(r.0, name) == Some(r.1)
    ensures r.1 == |cats| ==> r.0[r.1] == NewCategory(name, fmt)
    ensures UniqueNames(cats) ==> UniqueNames(r.0)
  {
    match Find(cats, name)
    case Some(i) => (cats, i)
    case None =>
      var t := cats + [NewCategory(name, fmt)];
      assert t[..|cats|] == cats;
      assert t[|cats|].catname == name;
      assert forall j :: 0 <= j < |cats| ==> t[j].catname == cats[j].catname != name;
      (t, |cats|)
  }

  /** Seconds accumulated under `name`; a category that does not exist yet holds zero. */
  function CatTime(cats: seq<Category>, name: string): real {
    match Find(cats, name)
    case Some(i) => cats[i].cattime
    case None => 0.0
  }

  /**
   * `getcat(name)`, then `cattime += delta` and the display text recomputed
   * from the new total.
   */
  function AddTime(cats: seq<Category>, name: string, delta: real, fmt: Formatter): seq<Category> {
    var (t, i) := GetOrCreate(cats, name, fmt);
    var total := t[i].cattime + delta;
    t[i := t[i].(cattime := total, cattimeStr := fmt(total))]
  }

  /** Two tables with the same names at the positions they share, where the longer one adds no record named `name`, agree on where `name` is. */
  lemma {:induction false} FindAgrees(a: seq<Category>, b: seq<Category>, name: string)
    requires |a| <= |b|
    requires forall j :: 0 <= j < |a| ==> b[j].catname == a[j].catname
    requires forall j :: |a| <= j < |b| ==> b[j].catname != name
    ensures Find(b, name) == Find(a, name)
  {
    if |a| == 0 {
      assert forall j :: 0 <= j < |b| ==> b[j].catname != name;
    } else if a[0].catname != name {
      FindAgrees(a[1..], b[1..], name);
    }
  }

  /** Calling `getcat` twice with the same name is the same as calling it once. */
  lemma GetOrCreateIdempotent(cats: seq<Category>, name: string, fmt: Formatter)
    ensures var (t, i) := GetOrCreate(cats, name, fmt);
            GetOrCreate(t, name, fmt) == (t, i)
  {
  }

  /**
   * Adding time to one category: that category exists afterwards, holds
   * exactly `delta` more than before and shows the new total; every other
   * record keeps its place and its value; names stay unique.
   */
  lemma AddTimeSpec(cats: seq<Category>, name: string, delta: real, fmt: Formatter)
    ensures var r := AddTime(cats, name, delta, fmt);
            && Find(r, name).Some?
            && CatTime(r, name) == CatTime(cats, name) + delta
            && r[Find(r, name).value].cattimeStr == fmt(CatTime(r, name))
    ensures var r := AddTime(cats, name, delta, fmt);
            && |cats| <= |r| <= |cats| + 1
            && (|r| == |cats| + 1 ==> Find(cats, name).None?)
            && forall j :: 0 <= j < |cats| && cats[j].catname != name ==> r[j] == cats[j]
    ensures UniqueNames(cats) ==> UniqueNames(AddTime(cats, name, delta, fmt))
  {
    var (t, i) := GetOrCreate(cats, name, fmt);
    var r := AddTime(cats, name, delta, fmt);
    assert r == t[i := t[i].(cattime := t[i].cattime + delta, cattimeStr := fmt(t[i].cattime + delta))];
    FindAgrees(t, r, name);
    assert Find(r, name) == Some(i);
    assert CatTime(cats, name) == t[i].cattime by {
      if Find(cats, name).None? {
        assert t[i] == NewCategory(name, fmt);
      }
    }
  }

  /**
   * Adding time never moves a record: the records already there keep their
   * names in their slots, and a new record can only be appended at the end.
   */
  lemma AddTimeKeepsSlots(cats: seq<Category>, name: string, delta: real, fmt: Formatter)
    ensures var r := AddTime(cats, name, delta, fmt);
            && |cats| <= |r| <= |cats| + 1
            && (forall j :: 0 <= j < |cats| ==> r[j].catname == cats[j].catname)
            && (forall j :: |cats| <= j < |r| ==> r[j].catname == name)
  {
    var (t, i) := GetOrCreate(cats, name, fmt);
    assert forall j :: 0 <= j < |cats| ==> t[j] == cats[j];
  }

  /** Adding time under `name` leaves the time of every other category unchanged. */
  lemma AddTimeOther(cats: seq<Category>, name: string, delta: real, fmt: Formatter, other: string)
    requires other != name
    ensures Find(AddTime(cats, name, delta, fmt), other) == Find(cats, other)
    ensures CatTime(AddTime(cats, name, delta, fmt), other) == CatTime(cats, other)
  {
    var (t, i) := GetOrCreate(cats, name, fmt);
    var r := AddTime(cats, name, delta, fmt);
    FindAgrees(cats, r, other);
  }
}
