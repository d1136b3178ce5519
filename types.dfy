/**
 * The data model of the radial orbit chart: items, groups and the dataset
 * the caller hands to the chart (src/types/radial-orbit.ts).
 */
module OrbitTypes {

  datatype Option<+T> = None | Some(value: T)

  /** An entry of the optional `meta` record, in insertion order; values are already rendered with String(). */
  type MetaEntry = (string, string)

  // The source's `label` fields are named `title` here, because `label` is a Dafny keyword.
  datatype Item = Item(
    id: string,
    title: string,
    value: real,
    color: Option<string>,
    glow: Option<bool>,
    iconUrl: Option<string>,
    meta: Option<seq<MetaEntry>>)

  datatype Group = Group(
    id: string,
    title: string,
    items: seq<Item>,
    radius: Option<real>,
    color: Option<string>)

  datatype Center = Center(id: string, title: string, subtitle: Option<string>, avatarUrl: Option<string>)

  datatype Dataset = Dataset(center: Center, groups: seq<Group>)

  /** The values of a sequence of items, in order (`items.map(item => item.value)`). */
  function ValuesOf(items: seq<Item>): (vs: seq<real>)
    ensures |vs| == |items|
    ensures forall i :: 0 <= i < |items| ==> vs[i] == items[i].value
  {
    seq(|items|, i requires 0 <= i < |items| => items[i].value)
  }
}
