/** The texts of errors, as the strings that travel in replies. */
module Texts {
  import opened Bytes
  import opened Bincode
  import Usb
  import Devices

  function Decimal(n: nat): (s: string)
    ensures 1 <= |s| <= n + 1
  {
    var digit := ['0' + (n % 10) as char];
    if n < 10 then digit else Decimal(n / 10) + digit
  }

  function TextOf(s: string): (t: Text)
    requires |s| < U64_LIMIT
  {
    Ascii(s)
  }

  function UsbText(code: Usb.UsbCode): (s: string)
    ensures |s| < 80
  {
    match code
    case Io => "Input/Output Error"
    case InvalidParam => "Invalid parameter"
    case Access => "Access denied (insufficient permissions)"
    case NoDevice => "No such device (it may have been disconnected)"
    case NotFound => "Entity not found"
    case Busy => "Resource busy"
    case Timeout => "Operation timed out"
    case Overflow => "Overflow"
    case Pipe => "Pipe error"
    case Interrupted => "System call interrupted (perhaps due to signal)"
    case NoMem => "Insufficient memory"
    case NotSupported => "Operation not supported or unimplemented on this platform"
    case Other => "Other error"
  }

  function FailureText(f: Devices.Failure): Text {
    match f
    case AlreadyAttached => TextOf("Device already attached by another client")
    case NotAttached => TextOf("Device not attached (no active session)")
    case NoSuchDevice(d) =>
      TextOf("Device not found: bus=" + Decimal(d.busNumber) + " addr=" + Decimal(d.address))
    case BadSession(s) => SessionText(s)
    case UsbFailure(code) => TextOf("USB error: " + UsbText(code))
  }

  lemma {:induction false} DecimalLength(n: nat, k: nat)
    requires n < Power10(k + 1)
    ensures |Decimal(n)| <= k + 1
  {
    if k > 0 && n >= 10 {
      DecimalLength(n / 10, k - 1);
    }
  }

  function Power10(k: nat): nat {
    if k == 0 then 1 else 10 * Power10(k - 1)
  }

  function SessionText(s: u64): Text {
    assert |Decimal(s)| <= 20 by {
      assert Power10(5) == 100000;
      assert Power10(10) == 10000000000;
      assert Power10(15) == 1000000000000000;
      assert Power10(20) == 100000000000000000000;
      DecimalLength(s, 19);
    }
    TextOf("Invalid session ID: " + Decimal(s))
  }
}
