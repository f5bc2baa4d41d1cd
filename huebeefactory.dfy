/** The Philips Hue bee factory: a fixed descriptor of the plugin kind
    "huebee" (identity, configuration schema, events and actions) and the
    operation that builds a configured HueBee. */
module HueBeeFactory {
  import opened Bees
  import HueBee

  /** The factory's stable identifier, also the registry key. */
  function ID(): string { "huebee" }

  /** The display name, also the namespace of every action. */
  function Name(): string { "Philips Hue" }

  function Description(): string { "Controls Philips Hue lighting systems" }

  /** The image file name, derived from the identifier. */
  function Image(): (r: string)
    ensures |r| == |ID()| + 4
    ensures r[..|ID()|] == ID() && r[|ID()|..] == ".png"
  {
    ID() + ".png"
  }

  /** The preferred logo background colour of the admin interface. */
  function LogoColor(): string { "#212727" }

  /** The configuration schema: where the bridge is and how to authenticate. */
  function Options(): (r: seq<OptionDescriptor>)
    ensures |r| == 2
    ensures forall o :: o in r ==> o.mandatory
    ensures Distinct(Names(r, OptionName))
  {
    [ OptionDescriptor("address", "Address of the Hue bridge, eg: 192.168.0.1", "address", true),
      OptionDescriptor("key", "Key used for auth with the bridge", "string", true) ]
  }

  /** This bee emits no events. */
  function Events(): (r: seq<EventDescriptor>)
    ensures |r| == 0
  {
    []
  }

  function SwitchAction(): ActionDescriptor
  {
    ActionDescriptor(Name(), "switch", "Switches on/off a Hue light",
      [ PlaceholderDescriptor("light", "ID of the light you want to switch on or off", "int", true),
        PlaceholderDescriptor("state", "New state of the light, true for turning it on", "bool", true) ])
  }

  function SetColorAction(): ActionDescriptor
  {
    ActionDescriptor(Name(), "setcolor", "Changes the color of a Hue light",
      [ PlaceholderDescriptor("light", "ID of the light you want to switch on or off", "int", true),
        PlaceholderDescriptor("color", "New color of the light you want to change", "string", false),
        PlaceholderDescriptor("brightness", "New brightness of the light you want to change", "int", false),
        PlaceholderDescriptor("alert", "0: no alert, 1: short alert, 2: long alert", "int", false) ])
  }

  /** The actions the host can invoke, all under this factory's namespace,
      with unique names and unique placeholder names per action. */
  function Actions(): (r: seq<ActionDescriptor>)
    ensures |r| == 2
    ensures forall a :: a in r ==> a.namespace == Name()
    ensures Distinct(Names(r, ActionName))
    ensures forall a :: a in r ==> Distinct(Names(a.options, PlaceholderName))
  {
    var r := [SwitchAction(), SetColorAction()];
    assert Names(SwitchAction().options, PlaceholderName) == ["light", "state"];
    assert Names(SetColorAction().options, PlaceholderName) == ["light", "color", "brightness", "alert"];
    r
  }

  /** Builds a HueBee bound to this factory's ID and applies the supplied
      options to it before returning it. */
  method New(name: string, description: string, options: BeeOptions) returns (b: HueBee.HueBee)
    ensures fresh(b)
    ensures b.bee == Bee(name, ID(), description, options)
    ensures b.config == Some(options)
  {
    b := new HueBee.HueBee(NewBee(name, ID(), description, options));
    b.ReloadOptions(options);
  }

  /** The identity constants the host shows and persists. */
  lemma IdentityConstants()
    ensures ID() == "huebee" && Name() == "Philips Hue"
    ensures Description() == "Controls Philips Hue lighting systems"
    ensures LogoColor() == "#212727"
  {
  }

  lemma ImageIsIdPng()
    ensures Image() == ID() + ".png"
    ensures Image() == "huebee.png"
  {
  }

  lemma OptionsSchema()
    ensures Names(Options(), OptionName) == ["address", "key"]
    ensures Options()[0].typ == "address" && Options()[0].mandatory
    ensures Options()[1].typ == "string" && Options()[1].mandatory
  {
  }

  lemma ActionsSchema()
    ensures Names(Actions(), ActionName) == ["switch", "setcolor"]
    ensures forall a :: a in Actions() ==> a.namespace == "Philips Hue"
  {
  }

  lemma SwitchSchema()
    ensures Actions()[0].name == "switch"
    ensures Names(Actions()[0].options, PlaceholderName) == ["light", "state"]
    ensures Actions()[0].options[0].typ == "int" && Actions()[0].options[1].typ == "bool"
    ensures forall p :: p in Actions()[0].options ==> p.mandatory
    ensures MandatoryNames(Actions()[0].options) == Names(Actions()[0].options, PlaceholderName)
    ensures MandatoryNames(Actions()[0].options) == ["light", "state"]
  {
  }

  lemma SetColorSchema()
    ensures Actions()[1].name == "setcolor"
    ensures Names(Actions()[1].options, PlaceholderName) == ["light", "color", "brightness", "alert"]
    ensures Actions()[1].options[0].typ == "int" && Actions()[1].options[1].typ == "string"
    ensures Actions()[1].options[2].typ == "int" && Actions()[1].options[3].typ == "int"
    ensures Actions()[1].options[0].mandatory
    ensures forall p :: p in Actions()[1].options[1..] ==> !p.mandatory
    ensures MandatoryNames(Actions()[1].options[1..]) == []
    ensures MandatoryNames(Actions()[1].options) == ["light"]
  {
  }
}
