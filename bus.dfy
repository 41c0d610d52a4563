/** `usb.core.find` with a custom match object, over an abstract bus: the
    sequence of devices the host stack enumerates, in enumeration order. */
module UsbBus {
  import opened Usb
  import opened Matcher

  /** `usb.core.find(find_all=True, custom_match=m)`: the matching devices, in bus order. */
  function FindAll(bus: seq<Device>, m: HasCmsisDapv2Interface, classes: set<byte>): (found: seq<Device>)
    ensures |found| <= |bus|
    ensures forall d :: d in found ==> d in bus && m.Matches(d, classes)
  {
    if bus == [] then []
    else (if m.Matches(bus[0], classes) then [bus[0]] else []) + FindAll(bus[1..], m, classes)
  }

  /** `usb.core.find(custom_match=m)`: the first matching device, or None. */
  function FindFirst(bus: seq<Device>, m: HasCmsisDapv2Interface, classes: set<byte>): (found: Option<Device>)
    ensures found.Some? ==> found.value in bus && m.Matches(found.value, classes)
  {
    if bus == [] then None
    else if m.Matches(bus[0], classes) then Some(bus[0])
    else FindFirst(bus[1..], m, classes)
  }

  /** No matching device is dropped. */
  lemma {:induction false} FindAllKeepsEveryMatch(bus: seq<Device>, m: HasCmsisDapv2Interface, classes: set<byte>, d: Device)
    requires d in bus && m.Matches(d, classes)
    ensures d in FindAll(bus, m, classes)
  {
    if bus[0] != d {
      FindAllKeepsEveryMatch(bus[1..], m, classes, d);
    }
  }

  /** Enumerating two stretches of the bus one after the other finds what
      enumerating them together finds, in the same order. */
  lemma {:induction false} FindAllAppend(a: seq<Device>, b: seq<Device>, m: HasCmsisDapv2Interface, classes: set<byte>)
    ensures FindAll(a + b, m, classes) == FindAll(a, m, classes) + FindAll(b, m, classes)
  {
    if a != [] {
      assert (a + b)[1..] == a[1..] + b;
      FindAllAppend(a[1..], b, m, classes);
    } else {
      assert a + b == b;
    }
  }

  /** The single search returns the head of the full search. */
  lemma {:induction false} FindFirstIsFirstOfFindAll(bus: seq<Device>, m: HasCmsisDapv2Interface, classes: set<byte>)
    ensures FindFirst(bus, m, classes) ==
              if FindAll(bus, m, classes) == [] then None else Some(FindAll(bus, m, classes)[0])
  {
    if bus != [] && !m.Matches(bus[0], classes) {
      FindFirstIsFirstOfFindAll(bus[1..], m, classes);
    }
  }

  /** The single search finds nothing exactly when no device on the bus matches. */
  lemma FindFirstNone(bus: seq<Device>, m: HasCmsisDapv2Interface, classes: set<byte>)
    ensures FindFirst(bus, m, classes).None? <==> forall d :: d in bus ==> !m.Matches(d, classes)
  {
    FindFirstIsFirstOfFindAll(bus, m, classes);
    if exists d :: d in bus && m.Matches(d, classes) {
      var d :| d in bus && m.Matches(d, classes);
      FindAllKeepsEveryMatch(bus, m, classes, d);
    }
  }
}
