/** The CMSIS-DAP v2 device matcher: `match_cmsis_dap_interface_name` and
    `HasCmsisDapv2Interface.__call__`, with the descriptor search pyusb's
    `find_descriptor` performs on their behalf. */
module Matcher {
  import opened Usb

  /** The marker a CMSIS-DAP interface carries in its interface string. */
  const CmsisDapMarker: string := "CMSIS-DAP"

  /** Vendor-specific interface class and the subclass CMSIS-DAP v2 requires. */
  const VendorSpecificClass: byte := 0xff
  const CmsisDapSubClass: byte := 0

  ghost predicate OccursAt(s: string, sub: string, i: int)
  {
    0 <= i && i + |sub| <= |s| && s[i..i + |sub|] == sub
  }

  /** An occurrence of `sub` in `s` past position 0 is an occurrence in `s[1..]`, and back. */
  lemma ShiftOccurrence(s: string, sub: string)
    requires 0 < |sub| <= |s| && !OccursAt(s, sub, 0)
    ensures (exists i :: OccursAt(s, sub, i)) <==> exists i :: OccursAt(s[1..], sub, i)
  {
    if exists i :: OccursAt(s[1..], sub, i) {
      var i :| OccursAt(s[1..], sub, i);
      assert s[1..][i..i + |sub|] == s[i + 1..i + 1 + |sub|];
      assert OccursAt(s, sub, i + 1);
    }
    if exists i :: OccursAt(s, sub, i) {
      var i :| OccursAt(s, sub, i);
      assert i != 0;
      assert s[1..][i - 1..i - 1 + |sub|] == s[i..i + |sub|];
      assert OccursAt(s[1..], sub, i - 1);
    }
  }

  /** Python's `sub in s` on strings: true exactly when `sub` occurs in `s`
      at some position. */
  function ContainsSubstring(s: string, sub: string): (r: bool)
    ensures r <==> exists i :: OccursAt(s, sub, i)
    decreases |s|
  {
    if |s| < |sub| then
      assert forall i :: !OccursAt(s, sub, i);
      false
    else if s[..|sub|] == sub then
      assert OccursAt(s, sub, 0);
      true
    else
      ShiftOccurrence(s, sub);
      ContainsSubstring(s[1..], sub)
  }

  /** `match_cmsis_dap_interface_name`: the interface string exists and contains
      the marker. An exception raised while reading the string propagates. */
  function NameMatches(itf: InterfaceDescriptor): (r: Result<bool, AccessError>)
    ensures r.Failure? <==> itf.name.StringFailed?
    ensures r.Failure? ==> r.error == itf.name.error
    ensures r == Success(true) <==>
              itf.name.StringValue? && itf.name.text.Some? &&
              exists i :: OccursAt(itf.name.text.value, CmsisDapMarker, i)
  {
    match itf.name
    case StringFailed(e) => Failure(e)
    case StringValue(text) =>
      if text.None? then Success(false)
      else Success(ContainsSubstring(text.value, CmsisDapMarker))
  }

  /** `usb.util.find_descriptor(config, custom_match=match_cmsis_dap_interface_name)`:
      the first interface whose name matches, None when there is none; the first
      exception raised by a name read ends the search. */
  function FindInterface(ifs: seq<InterfaceDescriptor>): (r: Result<Option<InterfaceDescriptor>, AccessError>)
    ensures r.Success? && r.value.Some? ==>
              r.value.value in ifs && NameMatches(r.value.value) == Success(true)
  {
    if ifs == [] then Success(None)
    else match NameMatches(ifs[0])
      case Failure(e) => Failure(e)
      case Success(true) => Success(Some(ifs[0]))
      case Success(false) => FindInterface(ifs[1..])
  }

  /** Every interface before position k was read without error and is not named CMSIS-DAP. */
  ghost predicate NoneNamedBefore(ifs: seq<InterfaceDescriptor>, k: int)
  {
    0 <= k <= |ifs| && forall j :: 0 <= j < k ==> NameMatches(ifs[j]) == Success(false)
  }

  /** The search stops at position k: k is past the end, or the name read at k
      either fails or matches. */
  ghost predicate SearchStopsAt(ifs: seq<InterfaceDescriptor>, k: int)
  {
    NoneNamedBefore(ifs, k) && (k == |ifs| || NameMatches(ifs[k]) != Success(false))
  }

  /** What the search yields once it stops at k. */
  lemma {:induction false} FindInterfaceAt(ifs: seq<InterfaceDescriptor>, k: int)
    requires SearchStopsAt(ifs, k)
    ensures k == |ifs| ==> FindInterface(ifs) == Success(None)
    ensures k < |ifs| && NameMatches(ifs[k]) == Success(true) ==>
              FindInterface(ifs) == Success(Some(ifs[k]))
    ensures k < |ifs| && NameMatches(ifs[k]).Failure? ==>
              FindInterface(ifs) == Failure(NameMatches(ifs[k]).error)
    decreases k
  {
    if k > 0 {
      assert NameMatches(ifs[0]) == Success(false);
      assert SearchStopsAt(ifs[1..], k - 1) by {
        forall j | 0 <= j < k - 1 ensures NameMatches(ifs[1..][j]) == Success(false) {
          assert ifs[1..][j] == ifs[j + 1];
        }
      }
      FindInterfaceAt(ifs[1..], k - 1);
      assert k < |ifs| ==> ifs[1..][k - 1] == ifs[k];
    }
  }

  /** The search always stops somewhere. */
  lemma {:induction false} FindInterfaceStops(ifs: seq<InterfaceDescriptor>) returns (k: int)
    ensures SearchStopsAt(ifs, k)
    decreases |ifs|
  {
    if ifs == [] || NameMatches(ifs[0]) != Success(false) {
      k := 0;
    } else {
      var k' := FindInterfaceStops(ifs[1..]);
      k := k' + 1;
      forall j | 0 <= j < k ensures NameMatches(ifs[j]) == Success(false) {
        if j > 0 { assert ifs[j] == ifs[1..][j - 1]; }
      }
      assert k < |ifs| ==> ifs[k] == ifs[1..][k'];
    }
  }

  /** `HasCmsisDapv2Interface`: the match object handed to `usb.core.find`,
      optionally narrowed to one serial number. */
  datatype HasCmsisDapv2Interface = HasCmsisDapv2Interface(serial: Option<string>)
  {
    /** `__call__`: `classes` is the accepted CMSIS-DAP device-class set. Every
        caught descriptor-access exception means "no match". */
    predicate Matches(dev: Device, classes: set<byte>): (r: bool)
      ensures r ==> dev.bDeviceClass in classes && dev.config.ActiveConfiguration?
      ensures r && serial.Some? ==> dev.serialNumber == serial
    {
      if dev.bDeviceClass !in classes then false
      else match dev.config
        case ConfigFailed(_) => false
        case ActiveConfiguration(ifs) =>
          match FindInterface(ifs)
          case Failure(_) => false
          case Success(None) => false
          case Success(Some(itf)) =>
            itf.bInterfaceClass == VendorSpecificClass &&
            itf.bInterfaceSubClass == CmsisDapSubClass &&
            (serial.None? || serial == dev.serialNumber)
    }
  }

  /** The device class is checked first: a device outside the accepted set is
      rejected whatever its configuration says. */
  lemma WrongClassNeverMatches(m: HasCmsisDapv2Interface, dev: Device, classes: set<byte>, anyConfig: ConfigLookup)
    requires dev.bDeviceClass !in classes
    ensures !m.Matches(dev, classes)
    ensures !m.Matches(dev.(config := anyConfig), classes)
  {
  }

  /** A match names the interface that justifies it: the first one named
      CMSIS-DAP, read without error, vendor-specific class and subclass 0, with
      the serial number equal to the filter when one is set. */
  lemma MatchesSound(m: HasCmsisDapv2Interface, dev: Device, classes: set<byte>) returns (k: int)
    requires m.Matches(dev, classes)
    ensures dev.bDeviceClass in classes
    ensures dev.config.ActiveConfiguration?
    ensures var ifs := dev.config.interfaces;
              0 <= k < |ifs| && NoneNamedBefore(ifs, k) &&
              NameMatches(ifs[k]) == Success(true) &&
              ifs[k].bInterfaceClass == 0xff && ifs[k].bInterfaceSubClass == 0
    ensures m.serial.Some? ==> dev.serialNumber == m.serial
  {
    var ifs := dev.config.interfaces;
    k := FindInterfaceStops(ifs);
    FindInterfaceAt(ifs, k);
  }

  /** Conversely every device that meets those conditions matches. */
  lemma MatchesComplete(m: HasCmsisDapv2Interface, dev: Device, classes: set<byte>, k: int)
    requires dev.bDeviceClass in classes
    requires dev.config.ActiveConfiguration?
    requires var ifs := dev.config.interfaces;
               0 <= k < |ifs| && NoneNamedBefore(ifs, k) &&
               NameMatches(ifs[k]) == Success(true) &&
               ifs[k].bInterfaceClass == 0xff && ifs[k].bInterfaceSubClass == 0
    requires m.serial.Some? ==> dev.serialNumber == m.serial
    ensures m.Matches(dev, classes)
  {
    FindInterfaceAt(dev.config.interfaces, k);
  }

  /** A failing configuration read, or a failing string read reached before any
      CMSIS-DAP interface, makes the device not match (OSError whatever its
      errno, USBError, IndexError, NotImplementedError alike). */
  lemma DescriptorFailureNeverMatches(m: HasCmsisDapv2Interface, dev: Device, classes: set<byte>, k: int)
    requires dev.config.ConfigFailed? ||
             (var ifs := dev.config.interfaces;
              0 <= k < |ifs| && NoneNamedBefore(ifs, k) && ifs[k].name.StringFailed?)
    ensures !m.Matches(dev, classes)
  {
    if dev.config.ActiveConfiguration? {
      FindInterfaceAt(dev.config.interfaces, k);
    }
  }

  /** Without an interface named CMSIS-DAP there is no match. */
  lemma UnnamedNeverMatches(m: HasCmsisDapv2Interface, dev: Device, classes: set<byte>)
    requires dev.config.ActiveConfiguration?
    requires NoneNamedBefore(dev.config.interfaces, |dev.config.interfaces|)
    ensures !m.Matches(dev, classes)
  {
    FindInterfaceAt(dev.config.interfaces, |dev.config.interfaces|);
  }

  /** A serial filter narrows the unfiltered matcher to the devices reporting
      exactly that serial number. */
  lemma SerialFilterNarrows(dev: Device, classes: set<byte>, s: string)
    ensures HasCmsisDapv2Interface(Some(s)).Matches(dev, classes) <==>
              HasCmsisDapv2Interface(None).Matches(dev, classes) && dev.serialNumber == Some(s)
  {
  }
}
