/** The live Hue bee instance a factory returns.  Its bridge client and the
    execution of its actions are not part of this model; what is kept is the
    common bee record and the options last applied by ReloadOptions. */
module HueBee {
  import opened Bees

  class HueBee {
    /** The embedded bee record built by the host's constructor. */
    var bee: Bee
    /** The options most recently applied by ReloadOptions; None before the
        first reload. */
    var config: Option<BeeOptions>

    /** A struct literal that sets only the embedded bee record. */
    constructor (bee: Bee)
      ensures this.bee == bee && config == None
    {
      this.bee := bee;
      config := None;
    }

    /** Applies a new set of options to the instance, leaving the embedded
        bee record (its identity and the options it was built with) as it was. */
    method ReloadOptions(options: BeeOptions)
      modifies this
      ensures bee == old(bee)
      ensures config == Some(options)
    {
      config := Some(options);
    }
  }
}
