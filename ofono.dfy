/**
 * The ofono capability interface (`OfonoInterface`): the policy fragments a
 * snap gets for providing (slot) or using (plug) the ofono telephony service,
 * for each security backend and each point of a connection's life, and the
 * interface's fixed answers to sanitisation and auto-connection.
 *
 * The interface has no state: every operation is a case split on the backend
 * that returns a constant, nothing (Go's `nil`), or a template with the peer's
 * label put in place of a placeholder.
 */
module Ofono {
  import opened Wrappers
  import opened Replace

  /** The security backends a fragment can be written for; `Other` is any other backend name. */
  datatype SecuritySystem = AppArmor | SecComp | UDev | DBus | Other(name: string)

  /** A plug (consumer end of a connection): owning snap, plug name, interface name, attributes, apps bound to it. */
  datatype Plug = Plug(snap: string, name: string, iface: string, attrs: map<string, string>, apps: set<string>)

  /** A slot (provider end of a connection), of the same shape as a plug. */
  datatype Slot = Slot(snap: string, name: string, iface: string, attrs: map<string, string>, apps: set<string>)

  /**
   * The two label builders the interface calls to name the peer's AppArmor
   * profiles; they are defined elsewhere in the system and are left
   * uninterpreted here.
   */
  datatype LabelBuilders = LabelBuilders(slotAppLabelExpr: Slot -> string, plugAppLabelExpr: Plug -> string)

  /** What every snippet method returns: a fragment or nil, and an error or nil. */
  datatype SnippetResult = SnippetResult(snippet: Option<string>, err: Option<Error>)

  // Placeholders that the connected AppArmor templates hold for the peer's label.
  const SlotSecurityTags := "###SLOT_SECURITY_TAGS###"
  const PlugSecurityTags := "###PLUG_SECURITY_TAGS###"

  // The text of the templates whose content the proofs inspect is written in
  // short pieces, which the verifier can examine one at a time.

  /** The D-Bus rule shared by the connected templates, up to the peer's label. */
  const OfonoPeerRule :=
    "dbus (receive, send)\n" +
    "    bus=system\n" +
    "    path=/{,**}\n" +
    "    interface=org.ofono.*\n" +
    "    peer=(label="

  /** What follows the peer's label in the connected templates. */
  const PeerRuleEnd := "),\n"

  /** One line of policy comment. */
  function CommentLine(text: string): string
  {
    "# " + text + "\n"
  }

  /** The connected-slot AppArmor template up to its placeholder. */
  const ConnectedSlotAppArmorHead :=
    "\n" +
    CommentLine("Allow service to interact " + "with connected clients") +
    "\n" +
    CommentLine("Allow traffic to/from our interfaces. " + "The path depends on the modem plugin,") +
    CommentLine("and is arbitrary.") +
    OfonoPeerRule

  /** Access the ofono service needs to talk to one connected client. */
  const ConnectedSlotAppArmor := ConnectedSlotAppArmorHead + PlugSecurityTags + PeerRuleEnd

  /** The connected-plug AppArmor template up to its placeholder. */
  const ConnectedPlugAppArmorHead :=
    "\n" +
    CommentLine("Description: Allow using Ofono " + "service. Reserved because this gives") +
    CommentLine("privileged access to the " + "Ofono service.") +
    "\n" +
    "#include <abstractions/dbus-strict>\n" +
    "\n" +
    CommentLine("Allow all access to ofono services") +
    OfonoPeerRule

  /** Access a client needs to talk to the ofono service it is connected to. */
  const ConnectedPlugAppArmor := ConnectedPlugAppArmorHead + SlotSecurityTags + PeerRuleEnd

  /** Extra access on classic systems, where the ofono service may run unconfined. */
  const ConnectedPlugAppArmorClassic :=
    "\n" +
    CommentLine("Allow access to the unconfined ofono " + "services on classic.") +
    OfonoPeerRule + "unconfined" + PeerRuleEnd

  // The remaining fragments are used verbatim; the proofs treat their text as opaque.

  /** AppArmor access the ofono service itself needs. */
  const PermanentSlotAppArmor := @"
# Description: Allow operating as the ofono service. Reserved because this
# gives privileged access to the system.

# to create ppp network interfaces
capability net_admin,

# To check present devices
/run/udev/data/+usb:* r,
/run/udev/data/+usb-serial:* r,
/run/udev/data/+pci:* r,
/run/udev/data/+platform:* r,
/run/udev/data/+pnp:* r,
/run/udev/data/c* r,
/run/udev/data/n* r,
/sys/bus/usb/devices/ r,
# FIXME snapd should be querying udev and adding the /sys and /run/udev accesses
# that are assigned to the snap, but we are not there yet.
/sys/bus/usb/devices/** r,

# To get current seat, used to know user preferences like default SIM in
# multi-SIM devices.
/run/systemd/seats/{,*} r,

# Access to modem ports
# FIXME snapd should be more dynamic to avoid conflicts between snaps trying to
# access same ports.
/dev/tty[^0-9]* rw,
/dev/cdc-* rw,
/dev/modem* rw,
/dev/dsp rw,
/dev/chnlat11 rw,
/dev/socket/rild* rw,
# ofono puts ppp on top of the tun device
/dev/net/tun rw,

network netlink raw,
network netlink dgram,
network bridge,
network inet,
network inet6,
network packet,
network bluetooth,

include <abstractions/nameservice>

# DBus accesses
include <abstractions/dbus-strict>

dbus (send)
    bus=system
    path=/org/freedesktop/DBus
    interface=org.freedesktop.DBus
    member={Request,Release}Name
    peer=(name=org.freedesktop.DBus, label=unconfined),

# Allow binding the service to the requested connection name
dbus (bind)
    bus=system
    name=""org.ofono"",

# Allow traffic to/from our path and interface with any method for unconfined
# clients to talk to our ofono services.
dbus (receive, send)
    bus=system
    path=/{,**}
    interface=org.ofono.*
    peer=(label=unconfined),
"

  /** System calls the ofono service itself needs. */
  const PermanentSlotSecComp := @"
# Description: Allow operating as the ofono service. Reserved because this
# gives privileged access to the system.

# Communicate with DBus, netlink, rild
accept
accept4
bind
getsockopt
listen
recv
recvfrom
recvmmsg
recvmsg
send
sendmmsg
sendmsg
sendto
shutdown
"

  /** System calls a client of the ofono service needs. */
  const ConnectedPlugSecComp := @"
# Description: Allow using ofono service. Reserved because this gives
# privileged access to the ofono service.

# Can communicate with DBus system service
recv
recvmsg
recvfrom
send
sendto
sendmsg
"

  /** D-Bus policy that reserves the org.ofono name for the service. */
  const PermanentSlotDBus := @"
<!-- Comes from src/ofono.conf in sources -->

<policy user=""root"">
  <allow own=""org.ofono""/>
  <allow send_destination=""org.ofono""/>
  <allow send_interface=""org.ofono.SimToolkitAgent""/>
  <allow send_interface=""org.ofono.PushNotificationAgent""/>
  <allow send_interface=""org.ofono.SmartMessagingAgent""/>
  <allow send_interface=""org.ofono.PositioningRequestAgent""/>
  <allow send_interface=""org.ofono.HandsfreeAudioAgent""/>
</policy>

<policy context=""default"">
  <deny send_destination=""org.ofono""/>
  <!-- Additional restriction in next line (not in ofono.conf) -->
  <deny own=""org.ofono""/>
</policy>
"

  /** udev rules for the modems ofono drives. */
  const PermanentSlotUDev := @"
## Concatenation of all ofono udev rules (plugins/*.rules in ofono sources)
## Note that ofono uses this for very few modems and that in most cases it finds
## modems by checking directly in code udev events, so changes here will be rare

## plugins/ofono.rules
# do not edit this file, it will be overwritten on update

ACTION!=""add|change"", GOTO=""ofono_end""

# ISI/Phonet drivers
SUBSYSTEM!=""net"", GOTO=""ofono_isi_end""
ATTRS{type}!=""820"", GOTO=""ofono_isi_end""
KERNELS==""gadget"", GOTO=""ofono_isi_end""

# Nokia N900 modem
SUBSYSTEMS==""hsi"", ENV{OFONO_DRIVER}=""n900"", ENV{OFONO_ISI_ADDRESS}=""108""
KERNEL==""phonet*"", ENV{OFONO_DRIVER}=""n900"", ENV{OFONO_ISI_ADDRESS}=""108""

# STE u8500
KERNEL==""shrm0"", ENV{OFONO_DRIVER}=""u8500""

LABEL=""ofono_isi_end""

SUBSYSTEM!=""usb"", GOTO=""ofono_end""
ENV{DEVTYPE}!=""usb_device"", GOTO=""ofono_end""

# Ignore fake serial number
ATTRS{serial}==""1234567890ABCDEF"", ENV{ID_SERIAL_SHORT}=""""

# Nokia CDMA Device
ATTRS{idVendor}==""0421"", ATTRS{idProduct}==""023e"", ENV{OFONO_DRIVER}=""nokiacdma""
ATTRS{idVendor}==""0421"", ATTRS{idProduct}==""00b6"", ENV{OFONO_DRIVER}=""nokiacdma""

# Lenovo H5321gw 0bdb:1926
ATTRS{idVendor}==""0bdb"", ATTRS{idProduct}==""1926"", ENV{OFONO_DRIVER}=""mbm""

LABEL=""ofono_end""

## plugins/ofono-speedup.rules
# do not edit this file, it will be overwritten on update

ACTION!=""add|change"", GOTO=""ofono_speedup_end""

SUBSYSTEM!=""tty"", GOTO=""ofono_speedup_end""
KERNEL!=""ttyUSB[0-9]*"", GOTO=""ofono_speedup_end""

# SpeedUp 7300
ATTRS{idVendor}==""1c9e"", ATTRS{idProduct}==""9e00"", ENV{ID_USB_INTERFACE_NUM}==""00"", ENV{OFONO_LABEL}=""modem""
ATTRS{idVendor}==""1c9e"", ATTRS{idProduct}==""9e00"", ENV{ID_USB_INTERFACE_NUM}==""03"", ENV{OFONO_LABEL}=""aux""

# SpeedUp
ATTRS{idVendor}==""2020"", ATTRS{idProduct}==""1005"", ENV{ID_USB_INTERFACE_NUM}==""03"", ENV{OFONO_LABEL}=""modem""
ATTRS{idVendor}==""2020"", ATTRS{idProduct}==""1005"", ENV{ID_USB_INTERFACE_NUM}==""01"", ENV{OFONO_LABEL}=""aux""

ATTRS{idVendor}==""2020"", ATTRS{idProduct}==""1008"", ENV{ID_USB_INTERFACE_NUM}==""03"", ENV{OFONO_LABEL}=""modem""
ATTRS{idVendor}==""2020"", ATTRS{idProduct}==""1008"", ENV{ID_USB_INTERFACE_NUM}==""01"", ENV{OFONO_LABEL}=""aux""

# SpeedUp 9800
ATTRS{idVendor}==""1c9e"", ATTRS{idProduct}==""9800"", ENV{ID_USB_INTERFACE_NUM}==""01"", ENV{OFONO_LABEL}=""modem""
ATTRS{idVendor}==""1c9e"", ATTRS{idProduct}==""9800"", ENV{ID_USB_INTERFACE_NUM}==""02"", ENV{OFONO_LABEL}=""aux""

# SpeedUp U3501
ATTRS{idVendor}==""1c9e"", ATTRS{idProduct}==""9605"", ENV{ID_USB_INTERFACE_NUM}==""03"", ENV{OFONO_LABEL}=""modem""
ATTRS{idVendor}==""1c9e"", ATTRS{idProduct}==""9605"", ENV{ID_USB_INTERFACE_NUM}==""01"", ENV{OFONO_LABEL}=""aux""

LABEL=""ofono_speedup_end""
"
  // Facts about the template text.

  /** Every `#` in `s` is followed by a character other than `#`. */
  predicate HashesIsolated(s: string)
  {
    forall i :: 0 <= i < |s| && s[i] == '#' ==> i + 1 < |s| && s[i + 1] != '#'
  }

  lemma HashesIsolatedConcat(a: string, b: string)
    requires HashesIsolated(a) && HashesIsolated(b)
    ensures HashesIsolated(a + b)
  {
    forall i | 0 <= i < |a + b| && (a + b)[i] == '#'
      ensures i + 1 < |a + b| && (a + b)[i + 1] != '#'
    {
      if i < |a| {
        assert a[i] == '#';
      } else {
        assert b[i - |a|] == '#';
      }
    }
  }

  /** A placeholder starts with `##`, so it cannot start inside text whose hashes are isolated. */
  lemma NoPlaceholderStartsIn(p: string, rest: string, pat: string)
    requires HashesIsolated(p)
    requires |pat| >= 2 && pat[0] == '#' && pat[1] == '#'
    ensures forall i :: 0 <= i < |p| ==> !OccursAt(p + rest, pat, i)
  {
    forall i | 0 <= i < |p|
      ensures !OccursAt(p + rest, pat, i)
    {
      if OccursAt(p + rest, pat, i) {
        CharOfOccurrence(p + rest, pat, i, i);
        CharOfOccurrence(p + rest, pat, i, i + 1);
        assert false;
      }
    }
  }

  /** Text without any `#` holds no placeholder. */
  lemma NoPlaceholderInHashFree(q: string, pat: string)
    requires '#' !in q
    requires pat != [] && pat[0] == '#'
    ensures !Occurs(q, pat)
  {
    forall i: nat | i <= |q|
      ensures !OccursAt(q, pat, i)
    {
      if OccursAt(q, pat, i) {
        CharOfOccurrence(q, pat, i, i);
        assert false;
      }
    }
  }

  /** A placeholder cannot occur anywhere in text whose hashes are isolated. */
  lemma NoPlaceholderIn(s: string, pat: string)
    requires HashesIsolated(s)
    requires |pat| >= 2 && pat[0] == '#' && pat[1] == '#'
    ensures !Occurs(s, pat)
  {
    NoPlaceholderStartsIn(s, [], pat);
    assert s + [] == s;
  }

  /** A template head followed by a `#`-free label and the rule's end keeps its hashes isolated. */
  lemma LabelledRuleIsolated(head: string, peerLabel: string)
    requires HashesIsolated(head) && '#' !in peerLabel
    ensures HashesIsolated(head + peerLabel + PeerRuleEnd)
  {
    HashFreeIsolated(peerLabel);
    HashFreeIsolated(PeerRuleEnd);
    HashesIsolatedConcat(head, peerLabel);
    HashesIsolatedConcat(head + peerLabel, PeerRuleEnd);
  }

  /** The classic widening keeps its hashes isolated too. */
  lemma ClassicRuleIsolated()
    ensures HashesIsolated(ConnectedPlugAppArmorClassic)
  {
    var c := "Allow access to the unconfined ofono " + "services on classic.";
    assert '#' !in c;
    PeerRuleIsHashFree();
    CommentLineIsolated(c);
    HashFreeIsolated("\n");
    HashFreeIsolated(OfonoPeerRule + "unconfined" + PeerRuleEnd);
    HashesIsolatedConcat("\n", CommentLine(c));
    assert ConnectedPlugAppArmorClassic == ("\n" + CommentLine(c)) + (OfonoPeerRule + "unconfined" + PeerRuleEnd);
    HashesIsolatedConcat("\n" + CommentLine(c), OfonoPeerRule + "unconfined" + PeerRuleEnd);
  }

  lemma HashFreeIsolated(s: string)
    requires '#' !in s
    ensures HashesIsolated(s)
  {
  }

  lemma CommentLineIsolated(text: string)
    requires '#' !in text
    ensures HashesIsolated(CommentLine(text))
  {
    var line := CommentLine(text);
    assert line == "# " + text + "\n";
  }

  // The text between the hashes of the two template heads.

  lemma PeerRuleIsHashFree()
    ensures '#' !in OfonoPeerRule
  {
  }

  // The longest comments are proved free of `#` one by one, to keep
  // each proof small.

  lemma ServiceCommentIsHashFree()
    ensures '#' !in "Allow service to interact " + "with connected clients"
  {
  }

  lemma TrafficCommentIsHashFree()
    ensures '#' !in "Allow traffic to/from our interfaces. " + "The path depends on the modem plugin,"
  {
  }

  lemma DescriptionIsHashFree()
    ensures '#' !in "Description: Allow using Ofono " + "service. Reserved because this gives"
  {
  }

  lemma DirectiveIsolated()
    ensures HashesIsolated("#include <abstractions/dbus-strict>\n")
  {
  }

  lemma ConnectedSlotHeadIsolated()
    ensures HashesIsolated(ConnectedSlotAppArmorHead)
  {
    var c1 := "Allow service to interact " + "with connected clients";
    var c2 := "Allow traffic to/from our interfaces. " + "The path depends on the modem plugin,";
    var c3 := "and is arbitrary.";
    PeerRuleIsHashFree();
    ServiceCommentIsHashFree();
    TrafficCommentIsHashFree();
    assert '#' !in c3;
    CommentLineIsolated(c1);
    CommentLineIsolated(c2);
    CommentLineIsolated(c3);
    HashFreeIsolated("\n");
    HashFreeIsolated(OfonoPeerRule);
    var h1 := "\n" + CommentLine(c1);
    HashesIsolatedConcat("\n", CommentLine(c1));
    HashesIsolatedConcat(h1, "\n");
    HashesIsolatedConcat(h1 + "\n", CommentLine(c2));
    var h2 := h1 + "\n" + CommentLine(c2);
    HashesIsolatedConcat(h2, CommentLine(c3));
    HashesIsolatedConcat(h2 + CommentLine(c3), OfonoPeerRule);
  }

  lemma ConnectedPlugHeadIsolated()
    ensures HashesIsolated(ConnectedPlugAppArmorHead)
  {
    var c1 := "Description: Allow using Ofono " + "service. Reserved because this gives";
    var c2 := "privileged access to the " + "Ofono service.";
    var c3 := "Allow all access to ofono services";
    var directive := "#include <abstractions/dbus-strict>\n";
    PeerRuleIsHashFree();
    DescriptionIsHashFree();
    assert '#' !in c2 && '#' !in c3;
    DirectiveIsolated();
    CommentLineIsolated(c1);
    CommentLineIsolated(c2);
    CommentLineIsolated(c3);
    HashFreeIsolated("\n");
    HashFreeIsolated(OfonoPeerRule);
    var h1 := "\n" + CommentLine(c1);
    HashesIsolatedConcat("\n", CommentLine(c1));
    HashesIsolatedConcat(h1, CommentLine(c2));
    var h2 := h1 + CommentLine(c2);
    HashesIsolatedConcat(h2, "\n");
    HashesIsolatedConcat(h2 + "\n", directive);
    var h3 := h2 + "\n" + directive;
    HashesIsolatedConcat(h3, "\n");
    HashesIsolatedConcat(h3 + "\n", CommentLine(c3));
    HashesIsolatedConcat(h3 + "\n" + CommentLine(c3), OfonoPeerRule);
  }

  /**
   * The connected-slot template holds its placeholder exactly once, so
   * replacing every placeholder puts the label between the template's head
   * and its end.
   */
  lemma ConnectedSlotTemplateSubstitution(peerLabel: string)
    ensures Count(ConnectedSlotAppArmor, PlugSecurityTags) == 1
    ensures ReplaceAll(ConnectedSlotAppArmor, PlugSecurityTags, peerLabel)
         == ConnectedSlotAppArmorHead + peerLabel + PeerRuleEnd
  {
    var p, pat, q := ConnectedSlotAppArmorHead, PlugSecurityTags, PeerRuleEnd;
    ConnectedSlotHeadIsolated();
    NoPlaceholderStartsIn(p, pat + q, pat);
    assert p + (pat + q) == p + pat + q;
    NoPlaceholderInHashFree(q, pat);
    ReplaceAllSingle(p, q, pat, peerLabel);
  }

  /** The same for the connected-plug template and its slot placeholder. */
  lemma ConnectedPlugTemplateSubstitution(peerLabel: string)
    ensures Count(ConnectedPlugAppArmor, SlotSecurityTags) == 1
    ensures ReplaceAll(ConnectedPlugAppArmor, SlotSecurityTags, peerLabel)
         == ConnectedPlugAppArmorHead + peerLabel + PeerRuleEnd
  {
    var p, pat, q := ConnectedPlugAppArmorHead, SlotSecurityTags, PeerRuleEnd;
    ConnectedPlugHeadIsolated();
    NoPlaceholderStartsIn(p, pat + q, pat);
    assert p + (pat + q) == p + pat + q;
    NoPlaceholderInHashFree(q, pat);
    ReplaceAllSingle(p, q, pat, peerLabel);
  }

  // The interface's operations.

  /** The interface's name, its unique key in the catalogue of interfaces. */
  function Name(): (name: string)
    ensures name == "ofono"
  {
    "ofono"
  }

  /** A plug needs no access of its own, whatever the backend. */
  function PermanentPlugSnippet(plug: Plug, system: SecuritySystem): (r: SnippetResult)
    ensures r.snippet == None && r.err == None
  {
    SnippetResult(None, None)
  }

  /**
   * Access a connected plug needs: the AppArmor template with the slot's label
   * substituted, widened on classic systems; the client system calls for
   * seccomp; nothing for any other backend.
   */
  function ConnectedPlugSnippet(plug: Plug, slot: Slot, system: SecuritySystem, onClassic: bool,
                                labels: LabelBuilders): (r: SnippetResult)
    ensures r.err == None
    ensures r.snippet.Some? <==> system.AppArmor? || system.SecComp?
    ensures system.AppArmor? && onClassic ==>
      r.snippet == Some(ConnectedPlugAppArmorHead + labels.slotAppLabelExpr(slot) + PeerRuleEnd
                        + ConnectedPlugAppArmorClassic)
    ensures system.AppArmor? && !onClassic ==>
      r.snippet == Some(ConnectedPlugAppArmorHead + labels.slotAppLabelExpr(slot) + PeerRuleEnd)
    ensures system.SecComp? ==> r.snippet == Some(ConnectedPlugSecComp)
  {
    match system
    case AppArmor =>
      var peerLabel := labels.slotAppLabelExpr(slot);
      ConnectedPlugTemplateSubstitution(peerLabel);
      var snippet := ReplaceAll(ConnectedPlugAppArmor, SlotSecurityTags, peerLabel);
      if onClassic then SnippetResult(Some(snippet + ConnectedPlugAppArmorClassic), None)
      else SnippetResult(Some(snippet), None)
    case SecComp => SnippetResult(Some(ConnectedPlugSecComp), None)
    case _ => SnippetResult(None, None)
  }

  /**
   * Access the ofono service needs whether or not anything is connected: a
   * fixed fragment for each of the four known backends, nothing otherwise.
   * The slot itself plays no part.
   */
  function PermanentSlotSnippet(slot: Slot, system: SecuritySystem): (r: SnippetResult)
    ensures r.err == None
    ensures r.snippet == match system
      case AppArmor => Some(PermanentSlotAppArmor)
      case SecComp => Some(PermanentSlotSecComp)
      case UDev => Some(PermanentSlotUDev)
      case DBus => Some(PermanentSlotDBus)
      case Other(_) => None
  {
    match system
    case AppArmor => SnippetResult(Some(PermanentSlotAppArmor), None)
    case SecComp => SnippetResult(Some(PermanentSlotSecComp), None)
    case UDev => SnippetResult(Some(PermanentSlotUDev), None)
    case DBus => SnippetResult(Some(PermanentSlotDBus), None)
    case _ => SnippetResult(None, None)
  }

  /**
   * Access the ofono service needs for one connected plug: only for AppArmor,
   * the template with the plug's label in place of its placeholder.
   */
  function ConnectedSlotSnippet(plug: Plug, slot: Slot, system: SecuritySystem,
                                labels: LabelBuilders): (r: SnippetResult)
    ensures r.err == None
    ensures r.snippet.Some? <==> system.AppArmor?
    ensures system.AppArmor? ==>
      r.snippet == Some(ConnectedSlotAppArmorHead + labels.plugAppLabelExpr(plug) + PeerRuleEnd)
  {
    match system
    case AppArmor =>
      var peerLabel := labels.plugAppLabelExpr(plug);
      ConnectedSlotTemplateSubstitution(peerLabel);
      SnippetResult(Some(ReplaceAll(ConnectedSlotAppArmor, PlugSecurityTags, peerLabel)), None)
    case _ => SnippetResult(None, None)
  }

  /** Every plug is accepted as declared. */
  function SanitizePlug(plug: Plug): (err: Option<Error>)
    ensures err == None
  {
    None
  }

  /** Every slot is accepted as declared. */
  function SanitizeSlot(slot: Slot): (err: Option<Error>)
    ensures err == None
  {
    None
  }

  /** The interface is never connected automatically under the legacy rules. */
  function LegacyAutoConnect(): (auto: bool)
    ensures !auto
  {
    false
  }

  /** Any plug and slot may be connected automatically; the snap declarations have the final say. */
  function AutoConnect(plug: Plug, slot: Slot): (auto: bool)
    ensures auto
  {
    true
  }

  // Properties relating several operations.

  /**
   * The connected-slot fragment keeps no placeholder when the plug's label
   * holds no `#`.
   */
  lemma ConnectedSlotSnippetLeavesNoPlaceholder(plug: Plug, slot: Slot, labels: LabelBuilders)
    requires '#' !in labels.plugAppLabelExpr(plug)
    ensures !Occurs(ConnectedSlotSnippet(plug, slot, AppArmor, labels).snippet.value, PlugSecurityTags)
  {
    var peerLabel := labels.plugAppLabelExpr(plug);
    ConnectedSlotHeadIsolated();
    LabelledRuleIsolated(ConnectedSlotAppArmorHead, peerLabel);
    NoPlaceholderIn(ConnectedSlotAppArmorHead + peerLabel + PeerRuleEnd, PlugSecurityTags);
  }

  /**
   * The same for the connected-plug fragment and the slot's label, on a
   * classic system or not.
   */
  lemma ConnectedPlugSnippetLeavesNoPlaceholder(plug: Plug, slot: Slot, onClassic: bool, labels: LabelBuilders)
    requires '#' !in labels.slotAppLabelExpr(slot)
    ensures !Occurs(ConnectedPlugSnippet(plug, slot, AppArmor, onClassic, labels).snippet.value, SlotSecurityTags)
  {
    var peerLabel := labels.slotAppLabelExpr(slot);
    var confined := ConnectedPlugAppArmorHead + peerLabel + PeerRuleEnd;
    ConnectedPlugHeadIsolated();
    LabelledRuleIsolated(ConnectedPlugAppArmorHead, peerLabel);
    if onClassic {
      ClassicRuleIsolated();
      HashesIsolatedConcat(confined, ConnectedPlugAppArmorClassic);
      NoPlaceholderIn(confined + ConnectedPlugAppArmorClassic, SlotSecurityTags);
    } else {
      NoPlaceholderIn(confined, SlotSecurityTags);
    }
  }

  /**
   * On a classic system the connected-plug AppArmor fragment is the one of a
   * non-classic system followed by the classic widening, which is not empty:
   * the two modes always give different fragments.
   */
  lemma ClassicWidensConnectedPlug(plug: Plug, slot: Slot, labels: LabelBuilders)
    ensures ConnectedPlugSnippet(plug, slot, AppArmor, true, labels).snippet.value
         == ConnectedPlugSnippet(plug, slot, AppArmor, false, labels).snippet.value + ConnectedPlugAppArmorClassic
    ensures ConnectedPlugSnippet(plug, slot, AppArmor, true, labels)
         != ConnectedPlugSnippet(plug, slot, AppArmor, false, labels)
  {
    var onClassic := ConnectedPlugSnippet(plug, slot, AppArmor, true, labels).snippet.value;
    var confined := ConnectedPlugSnippet(plug, slot, AppArmor, false, labels).snippet.value;
    assert |onClassic| == |confined| + |ConnectedPlugAppArmorClassic| > |confined|;
  }

  /** Only the AppArmor fragments depend on the classic mode. */
  lemma ConnectedPlugModeMattersOnlyForAppArmor(plug: Plug, slot: Slot, system: SecuritySystem, labels: LabelBuilders)
    requires !system.AppArmor?
    ensures ConnectedPlugSnippet(plug, slot, system, true, labels)
         == ConnectedPlugSnippet(plug, slot, system, false, labels)
  {
  }
}
