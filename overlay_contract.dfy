/**
 * The overlay content interface (`Direct2DOverlay`): what a pluggable visual
 * offers the host, and nothing about how it draws.
 *
 * An implementation owns resources in two tiers: device resources (created
 * from the device context and the device) and sized resources (created from
 * the device context only). The model does not know what an implementation
 * allocates, so each operation takes the implementation's answer as its
 * `outcome` parameter, and the two tiers are tracked as "created
 * successfully since the last release" flags. A release drops the tier
 * whatever result it reports; a failed create leaves the tier as it was.
 */
module OverlayContract {
  import opened Win32

  /** The state-changing calls the host can make on an overlay. */
  datatype OverlayCall =
    | CreateResourcesCall
    | ReleaseResourcesCall
    | CreateSizedCall
    | ReleaseSizedCall

  class Overlay<A> {
    /** The content arguments, handed over by value at construction. */
    const args: A
    /** Device-tier resources were created and not released since. */
    var deviceTier: bool
    /** Sized-tier resources were created and not released since. */
    var sizedTier: bool
    /** Every state-changing call made on this overlay, in order. */
    ghost var history: seq<OverlayCall>

    constructor Init(args: A)
      ensures this.args == args
      ensures !deviceTier && !sizedTier && history == []
    {
      this.args := args;
      deviceTier, sizedTier := false, false;
      history := [];
    }

    /**
     * `new(args, factory)`: consumes the arguments and may fail; a fresh
     * overlay holds no resources of either tier.
     */
    static method New(args: A, outcome: Status) returns (r: Result<Overlay<A>>)
      ensures r.Ok? <==> outcome.Ok?
      ensures r.Err? ==> r.error == outcome.error
      ensures r.Ok? ==> fresh(r.value) && r.value.args == args
      ensures r.Ok? ==> !r.value.deviceTier && !r.value.sizedTier && r.value.history == []
    {
      if outcome.Err? {
        return Err(outcome.error);
      }
      var o := new Overlay.Init(args);
      return Ok(o);
    }

    /** `create_resources(target, device)`: may fail; on success the device tier exists. */
    method CreateResources(outcome: Status) returns (r: Status)
      modifies this
      ensures r == outcome
      ensures deviceTier == (old(deviceTier) || outcome.Ok?)
      ensures sizedTier == old(sizedTier)
      ensures history == old(history) + [CreateResourcesCall]
    {
      if outcome.Ok? {
        deviceTier := true;
      }
      history := history + [CreateResourcesCall];
      r := outcome;
    }

    /** `release_resources()`: takes no graphics object and drops the device tier. */
    method ReleaseResources(outcome: Status) returns (r: Status)
      modifies this
      ensures r == outcome
      ensures !deviceTier && sizedTier == old(sizedTier)
      ensures history == old(history) + [ReleaseResourcesCall]
    {
      deviceTier := false;
      history := history + [ReleaseResourcesCall];
      r := outcome;
    }

    /** `create_sized_resources(target)`: receives the context only; may fail. */
    method CreateSizedResources(outcome: Status) returns (r: Status)
      modifies this
      ensures r == outcome
      ensures sizedTier == (old(sizedTier) || outcome.Ok?)
      ensures deviceTier == old(deviceTier)
      ensures history == old(history) + [CreateSizedCall]
    {
      if outcome.Ok? {
        sizedTier := true;
      }
      history := history + [CreateSizedCall];
      r := outcome;
    }

    /** `release_sized_resources()`: takes no graphics object and drops the sized tier. */
    method ReleaseSizedResources(outcome: Status) returns (r: Status)
      modifies this
      ensures r == outcome
      ensures !sizedTier && deviceTier == old(deviceTier)
      ensures history == old(history) + [ReleaseSizedCall]
    {
      sizedTier := false;
      history := history + [ReleaseSizedCall];
      r := outcome;
    }

    /**
     * `draw(&self, target)`: may fail, and has no frame, so drawing cannot
     * change the overlay (neither tier nor the call history).
     */
    method Draw(outcome: Status) returns (r: Status)
      ensures r == outcome
    {
      r := outcome;
    }
  }
}
