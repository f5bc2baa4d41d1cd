# Philips Hue bee factory

A model of the Philips Hue plugin factory of beehive, an automation engine
whose plugins ("bees") are described to the host by factories. The
`HueBeeFactory` reports a fixed descriptor: its identifier `huebee`, its
display name `Philips Hue`, a description, a logo colour, an image name
derived from the identifier, two mandatory configuration options (`address`
of the bridge and auth `key`), no events, and two actions (`switch` and
`setcolor`) whose typed placeholders are flagged mandatory or optional. Its
`New` operation builds a `HueBee` bound to the factory's identifier and
applies the supplied options to it before returning it.

Files:

- `bees.dfy` (module `Bees`): the host's descriptor records, the bee record,
  and helpers that list descriptor names and mandatory placeholder names.
- `huebee.dfy` (module `HueBee`): the `HueBee` instance as a class whose
  `ReloadOptions` records the options applied to it.
- `huebeefactory.dfy` (module `HueBeeFactory`): the accessors as functions,
  `New` as a method, and lemmas pinning the exact schema.

## Model

| member | source | states |
|---|---|---|
| HueBeeFactory.IdentityConstants | bees/huebee/huebeefactory.go:42-65 | the identifier is `huebee`, the display name `Philips Hue`, the description `Controls Philips Hue lighting systems` and the logo colour `#212727` are the constants the factory reports |
| HueBeeFactory.Image | bees/huebee/huebeefactory.go:57-60 | the image name is the identifier followed by exactly `.png` and nothing else |
| HueBeeFactory.ImageIsIdPng | bees/huebee/huebeefactory.go:43-60 | the image name is therefore `huebee.png` |
| HueBeeFactory.Options | bees/huebee/huebeefactory.go:67-84 | there are exactly two options, every option is mandatory, and option names are unique |
| HueBeeFactory.OptionsSchema | bees/huebee/huebeefactory.go:69-82 | the options are `address` (type `address`) then `key` (type `string`), in that order, both mandatory |
| HueBeeFactory.Events | bees/huebee/huebeefactory.go:86-90 | the bee declares no events |
| HueBeeFactory.Actions | bees/huebee/huebeefactory.go:92-147 | there are exactly two actions, each in the namespace equal to the display name, with unique action names and unique placeholder names within each action |
| HueBeeFactory.ActionsSchema | bees/huebee/huebeefactory.go:94-145 | the actions are `switch` then `setcolor`, and every action's namespace is `Philips Hue` |
| HueBeeFactory.SwitchSchema | bees/huebee/huebeefactory.go:95-113 | `switch` has placeholders `light` (int) then `state` (bool), every one is mandatory, so its mandatory names are all its names in order |
| HueBeeFactory.SetColorSchema | bees/huebee/huebeefactory.go:114-144 | `setcolor` has placeholders `light` (int), `color` (string), `brightness` (int), `alert` (int) in that order, `light` is mandatory and the three after it are optional, so `light` is its only mandatory name |
| HueBeeFactory.New | bees/huebee/huebeefactory.go:32-40 | returns a fresh HueBee whose bee record holds the supplied name, description and options and the factory ID `huebee`, and whose applied configuration is exactly the supplied options |
| HueBee.HueBee.constructor | bees/huebee/huebeefactory.go:34-36 | the struct literal sets the embedded bee record and nothing has been applied yet |
| HueBee.HueBee.ReloadOptions | bees/huebee/huebeefactory.go:37 | applying options makes them the instance's configuration and leaves the embedded bee record, including the options it was built with, unchanged |
| Bees.Names | bees/huebee/huebeefactory.go:69-82 | the name list of a descriptor list has one entry per descriptor, in list order |
| Bees.MandatoryNames | bees/huebee/huebeefactory.go:99-143 | a name is listed exactly when some placeholder with that name is mandatory |

## Left out

- The `init` self-registration with the host's global factory registry (bees/huebee/huebeefactory.go:149-152): the registry code is not part of this model, so its duplicate-ID policy and lookup cannot be stated.
- The internals of `bees.NewBee` and `HueBee.ReloadOptions`: these live in files that are not part of this model. `NewBee` is taken to record exactly its arguments, and `ReloadOptions` to make the given options the instance's configuration without touching the embedded bee record (neither its identity nor the options it was built with); the bridge client it sets up is not modelled.
- `bees.BeeOptions` is not part of this model: options are modelled as an ordered list of name/value pairs with string values.
- Validation of option or placeholder values against their type tags, and enforcement of mandatory flags: the host does this, not the factory.
- The Hue bridge protocol and the execution of `switch` and `setcolor` against hardware: network I/O in another file.
- Concurrency and registry locking: the factory holds no state.
- Go's pointer return and the `bees.BeeInterface` interface: `New` returns a reference to a fresh `HueBee` object.
