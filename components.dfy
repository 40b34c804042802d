/**
 * The exit-handler components the facades create lazily (control register,
 * CPUID, EPT, MSR and the rest). Their internals are not part of this model:
 * a component is an object that records, in order, the calls the facade
 * forwards to it, so that what the facade asks of which component can be
 * stated.
 */
module Components {
  import opened Wrappers
  import opened Dispatch

  /** Which control-register access a handler or an exiting control is for. */
  datatype CrAccess = WrCr0 | RdCr3 | WrCr3 | WrCr4 | RdCr8 | WrCr8

  /** Which EPT violation a handler is for. */
  datatype Access = Read | Write | Execute

  /** A call forwarded to a component. */
  datatype Call =
    | Eptp(eptp: Option<nat>)                           // an EPT map, or null
    | Enable                                              // enable(), enable_exiting()
    | Disable                                             // disable(), disable_exiting()
    | EnableWriteExiting(cr: CrAccess, mask: bv64, shadow: bv64)
    | EnableExiting(cr: CrAccess)
    | AddHandler(d: Delegate)
    | AddCrHandler(cr: CrAccess, d: Delegate)
    | AddKeyedHandler(key: seq<bv64>, d: Delegate)       // a leaf, a (leaf, subleaf) pair, an MSR, an exit reason
    | AddViolationHandler(access: Access, d: Delegate)
    | AddIoHandler(port: bv64, inD: Delegate, outD: Delegate)
    | Inject(vector: bv64)

  class Component {
    var calls: seq<Call>
    /** The MSR bitmap an MSR component is given at construction, or null. */
    const msrBitmap: array?<bv8>

    constructor (msrBitmap: array?<bv8>)
      ensures calls == [] && this.msrBitmap == msrBitmap
    {
      calls := [];
      this.msrBitmap := msrBitmap;
    }

    method Record(c: Call)
      modifies this`calls
      ensures calls == old(calls) + [c]
    {
      calls := calls + [c];
    }
  }

  /** The calls a component has received so far; none when it does not exist. */
  ghost function CallsOf(c: Component?): seq<Call>
    reads c
  {
    if c == null then [] else c.calls
  }

  /** A lazily created component after `if (!c) { c = make_unique(...); }`: present, and the same one if it was present. */
  ghost predicate Kept(before: Component?, after: Component?)
  {
    after != null && (before != null ==> after == before)
  }

  /** The component `c`, or a fresh one when `c` is null. */
  method Obtain(c: Component?, msrBitmap: array?<bv8>) returns (r: Component)
    ensures c != null ==> r == c
    ensures c == null ==> fresh(r) && r.calls == [] && r.msrBitmap == msrBitmap
  {
    if c == null {
      r := new Component(msrBitmap);
    } else {
      r := c;
    }
  }
}
