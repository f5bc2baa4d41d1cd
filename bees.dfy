/** The host package's descriptor records and the bee record that plugin
    factories build.  Only the fields a factory fills in are modelled; the
    host's registry, dispatcher and option validation are not part of this
    model. */
module Bees {

  datatype Option<T> = None | Some(value: T)

  /** One configurable setting of a bee: its name, a human description, a
      type tag such as "string" or "address", and whether it must be set. */
  datatype OptionDescriptor = OptionDescriptor(
    name: string,
    description: string,
    typ: string,
    mandatory: bool)

  /** One named parameter of an event or an action. */
  datatype PlaceholderDescriptor = PlaceholderDescriptor(
    name: string,
    description: string,
    typ: string,
    mandatory: bool)

  /** One kind of event a bee can emit, with its payload placeholders. */
  datatype EventDescriptor = EventDescriptor(
    namespace: string,
    name: string,
    description: string,
    options: seq<PlaceholderDescriptor>)

  /** One command the host can invoke on a bee, with its parameters. */
  datatype ActionDescriptor = ActionDescriptor(
    namespace: string,
    name: string,
    description: string,
    options: seq<PlaceholderDescriptor>)

  /** A user-supplied option value.  Values are opaque to the factory; they
      are modelled as strings. */
  datatype BeeOption = BeeOption(name: string, value: string)

  type BeeOptions = seq<BeeOption>

  /** The common part of every bee instance: its display name, the ID of the
      factory that built it, a description and the options it was built with. */
  datatype Bee = Bee(
    name: string,
    factoryId: string,
    description: string,
    options: BeeOptions)

  /** The host's bee constructor.  Its internals live outside this model; it
      is taken to record exactly what it is given. */
  function NewBee(name: string, factoryId: string, description: string, options: BeeOptions): Bee
  {
    Bee(name, factoryId, description, options)
  }

  /** No two entries of `s` are equal. */
  predicate Distinct(s: seq<string>)
  {
    forall i, j :: 0 <= i < j < |s| ==> s[i] != s[j]
  }

  /** The names of a descriptor list, in list order. */
  function Names<T>(xs: seq<T>, name: T -> string): (r: seq<string>)
    ensures |r| == |xs|
    ensures forall i :: 0 <= i < |xs| ==> r[i] == name(xs[i])
  {
    if xs == [] then [] else [name(xs[0])] + Names(xs[1..], name)
  }

  function OptionName(o: OptionDescriptor): string { o.name }

  function ActionName(a: ActionDescriptor): string { a.name }

  function PlaceholderName(p: PlaceholderDescriptor): string { p.name }

  /** The names of the mandatory placeholders. */
  function MandatoryNames(ps: seq<PlaceholderDescriptor>): (r: seq<string>)
    ensures |r| <= |ps|
    ensures forall n :: n in r <==> exists i :: 0 <= i < |ps| && ps[i].mandatory && ps[i].name == n
  {
    if ps == [] then []
    else
      var rest := MandatoryNames(ps[1..]);
      assert forall i :: 1 <= i < |ps| ==> ps[i] == ps[1..][i - 1];
      if ps[0].mandatory then [ps[0].name] + rest else rest
  }
}
