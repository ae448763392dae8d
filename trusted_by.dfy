/**
 * The "trusted by" section: the client list, the two marquee rows that repeat it, each logo
 * card's image source with its fallback, the count-up animation of the statistics, the years of
 * trust and the latch that starts the counters once the section has been seen.
 */
module TrustedBy {
  import opened Wrappers

  // ---------------------------------------------------------------------------------------------
  // encodeURIComponent

  /** The characters `encodeURIComponent` leaves as they are. */
  predicate Unreserved(c: char)
  {
    || ('A' <= c <= 'Z') || ('a' <= c <= 'z') || ('0' <= c <= '9')
    || c == '-' || c == '_' || c == '.' || c == '!' || c == '~' || c == '*' || c == '\'' || c == '(' || c == ')'
  }

  /** The UTF-8 bytes of one Unicode scalar value. */
  function Utf8(c: char): (bytes: seq<int>)
    ensures 1 <= |bytes| <= 4
    ensures forall i :: 0 <= i < |bytes| ==> 0 <= bytes[i] < 256
    ensures |bytes| == 1 <==> c as int < 0x80
    ensures |bytes| == 1 ==> bytes[0] == c as int
  {
    var n := c as int;
    if n < 0x80 then [n]
    else if n < 0x800 then [0xC0 + n / 0x40, 0x80 + n % 0x40]
    else if n < 0x10000 then [0xE0 + n / 0x1000, 0x80 + (n / 0x40) % 0x40, 0x80 + n % 0x40]
    else [0xF0 + n / 0x40000, 0x80 + (n / 0x1000) % 0x40, 0x80 + (n / 0x40) % 0x40, 0x80 + n % 0x40]
  }

  /** An upper-case hexadecimal digit. */
  function HexDigit(d: int): (h: char)
    requires 0 <= d < 16
    ensures Unreserved(h)
  {
    if d < 10 then ('0' as int + d) as char else ('A' as int + d - 10) as char
  }

  /** `%XY` for each byte. */
  function PercentEncode(bytes: seq<int>): (r: string)
    requires forall i :: 0 <= i < |bytes| ==> 0 <= bytes[i] < 256
    ensures |r| == 3 * |bytes|
    ensures forall i :: 0 <= i < |r| ==> r[i] == '%' || Unreserved(r[i])
  {
    if bytes == [] then ""
    else
      var rest := PercentEncode(bytes[1..]);
      var r := ['%', HexDigit(bytes[0] / 16), HexDigit(bytes[0] % 16)] + rest;
      assert forall i :: 3 <= i < |r| ==> r[i] == rest[i - 3];
      r
  }

  /** One character as `encodeURIComponent` writes it. */
  function EncodeChar(c: char): (r: string)
    ensures Unreserved(c) ==> r == [c]
    ensures !Unreserved(c) ==> |r| == 3 * |Utf8(c)| && r[0] == '%'
    ensures forall i :: 0 <= i < |r| ==> r[i] == '%' || Unreserved(r[i])
  {
    if Unreserved(c) then [c] else PercentEncode(Utf8(c))
  }

  /**
   * `encodeURIComponent` on a string of Unicode scalar values (a string with a lone surrogate,
   * on which it throws, is not a Dafny string).
   */
  function EncodeUriComponent(s: string): (r: string)
    ensures |r| >= |s|
    ensures forall i :: 0 <= i < |r| ==> r[i] == '%' || Unreserved(r[i])
  {
    if s == "" then "" else EncodeChar(s[0]) + EncodeUriComponent(s[1..])
  }

  /** The encoding works character by character. */
  lemma {:induction false} EncodeAppend(a: string, b: string)
    ensures EncodeUriComponent(a + b) == EncodeUriComponent(a) + EncodeUriComponent(b)
  {
    if a == "" {
      assert a + b == b;
    } else {
      assert (a + b)[0] == a[0] && (a + b)[1..] == a[1..] + b;
      EncodeAppend(a[1..], b);
    }
  }

  /** A string of unreserved characters is its own encoding. */
  lemma {:induction false} EncodeUnreservedIdentity(s: string)
    requires forall i :: 0 <= i < |s| ==> Unreserved(s[i])
    ensures EncodeUriComponent(s) == s
  {
    if s != "" {
      EncodeUnreservedIdentity(s[1..]);
    }
  }

  /** A space becomes `%20`. */
  lemma EncodeSpace()
    ensures EncodeUriComponent(" ") == "%20"
  {
    assert EncodeChar(' ') == "%20";
  }

  // ---------------------------------------------------------------------------------------------
  // The clients and the marquee

  datatype ClientLogo = ClientLogo(name: string, file: string, fallbackFile: string)

  const Clients: seq<ClientLogo> := [
    ClientLogo("Indian Army", "indian Army.png", "indian-army.svg"),
    ClientLogo("Indian Forest Service", "indian forest Dept.png", "client-partner.svg"),
    ClientLogo("Veespa Paints Pvt Ltd", "veespa paints.png", "veespa-paints.svg"),
    ClientLogo("Vidyarthi Sahayyak Samiti, Pune", "VSs.png", "brothers-solar-security.svg"),
    ClientLogo("Legal Swamp", "legal swamp.png", "client-partner.svg"),
    ClientLogo("SimuSoft", "simusoft.png", "client-partner.svg"),
    ClientLogo("PATE Developers", "pate developers.png", "client-partner.svg"),
    ClientLogo("Apex Dies and Moulds", "apex.png", "client-partner.svg"),
    ClientLogo("Jayram Transport Corp", "jayramtrans.png", "jayram-transport.svg"),
    ClientLogo("Aida Tours", "aidatours.png", "client-partner.svg"),
    ClientLogo("Brainlines Solutions Private Limited", "brainlines.png", "brothers-solar-security.svg")
  ]

  /** `[...clients, ...clients, ...clients]`, the cards of one marquee row. */
  function Marquee(clients: seq<ClientLogo>): seq<ClientLogo>
  {
    clients + clients + clients
  }

  /** A row holds the list three times over: card `i` is client `i mod n`. */
  lemma MarqueeRepeats(clients: seq<ClientLogo>)
    requires |clients| > 0
    ensures |Marquee(clients)| == 3 * |clients|
    ensures forall i :: 0 <= i < |Marquee(clients)| ==> Marquee(clients)[i] == clients[i % |clients|]
  {
    var n := |clients|;
    var m := Marquee(clients);
    forall i | 0 <= i < |m| ensures m[i] == clients[i % n] {
      if i < n {
        assert i % n == i;
      } else if i < 2 * n {
        ModShift(i - n, n);
      } else {
        ModShift(i - 2 * n, n);
      }
    }
  }

  lemma ModShift(a: int, n: int)
    requires 0 <= a < n
    ensures (a + n) % n == a && (a + 2 * n) % n == a
  {
  }

  /** Each row shows the eleven clients three times in their order: 33 cards. */
  lemma DefaultMarquee()
    ensures |Clients| == 11 && |Marquee(Clients)| == 33
    ensures forall i :: 0 <= i < 33 ==> Marquee(Clients)[i] == Clients[i % 11]
  {
    MarqueeRepeats(Clients);
  }

  // ---------------------------------------------------------------------------------------------
  // The logo card

  const LogoDir := "/client-logos/"

  /** `/client-logos/${encodeURIComponent(client.file)}` */
  function PrimarySrc(c: ClientLogo): string
  {
    LogoDir + EncodeUriComponent(c.file)
  }

  /** `/client-logos/${encodeURIComponent(client.fallbackFile)}` */
  function FallbackSrc(c: ClientLogo): string
  {
    LogoDir + EncodeUriComponent(c.fallbackFile)
  }

  predicate EndsWith(s: string, suffix: string)
  {
    |suffix| <= |s| && s[|s| - |suffix|..] == suffix
  }

  /** A file name `stem + ext` is encoded as the encoded stem followed by `ext`, when `ext` needs no escape. */
  lemma EncodeWithExtension(stem: string, ext: string)
    requires forall i :: 0 <= i < |ext| ==> Unreserved(ext[i])
    ensures EncodeUriComponent(stem + ext) == EncodeUriComponent(stem) + ext
  {
    EncodeAppend(stem, ext);
    EncodeUnreservedIdentity(ext);
  }

  /** A `.png` primary file and an `.svg` fallback give two different image sources. */
  lemma PrimaryNotFallback(c: ClientLogo)
    requires EndsWith(c.file, ".png") && EndsWith(c.fallbackFile, ".svg")
    ensures PrimarySrc(c) != FallbackSrc(c)
  {
    var png, svg := ".png", ".svg";
    assert Unreserved(png[0]) && Unreserved(png[1]) && Unreserved(png[2]) && Unreserved(png[3]);
    assert Unreserved(svg[0]) && Unreserved(svg[1]) && Unreserved(svg[2]) && Unreserved(svg[3]);
    assert png[1] != svg[1];
    EncodedEndsWith(c.file, png);
    EncodedEndsWith(c.fallbackFile, svg);
  }

  /** The encoded source of a file keeps its unreserved extension at the end. */
  lemma EncodedEndsWith(file: string, ext: string)
    requires EndsWith(file, ext)
    requires forall i :: 0 <= i < |ext| ==> Unreserved(ext[i])
    ensures EndsWith(LogoDir + EncodeUriComponent(file), ext)
  {
    var stem := file[..|file| - |ext|];
    assert file == stem + ext;
    EncodeWithExtension(stem, ext);
    assert LogoDir + EncodeUriComponent(file) == (LogoDir + EncodeUriComponent(stem)) + ext;
  }

  lemma Split(c: ClientLogo, a: string, b: string)
    requires c.file == a + ".png" && c.fallbackFile == b + ".svg"
    ensures EndsWith(c.file, ".png") && EndsWith(c.fallbackFile, ".svg")
  {
  }

  /** Every listed client has a `.png` logo and an `.svg` fallback, so its two sources differ. */
  lemma DefaultClientFiles(i: nat)
    requires i < |Clients|
    ensures EndsWith(Clients[i].file, ".png") && EndsWith(Clients[i].fallbackFile, ".svg")
    ensures PrimarySrc(Clients[i]) != FallbackSrc(Clients[i])
  {
    if i == 0 {
      Split(Clients[0], "indian Army", "indian-army");
    } else if i == 1 {
      Split(Clients[1], "indian forest Dept", "client-partner");
    } else if i == 2 {
      Split(Clients[2], "veespa paints", "veespa-paints");
    } else if i == 3 {
      Split(Clients[3], "VSs", "brothers-solar-security");
    } else if i == 4 {
      Split(Clients[4], "legal swamp", "client-partner");
    } else if i == 5 {
      Split(Clients[5], "simusoft", "client-partner");
    } else if i == 6 {
      Split(Clients[6], "pate developers", "client-partner");
    } else if i == 7 {
      Split(Clients[7], "apex", "client-partner");
    } else if i == 8 {
      Split(Clients[8], "jayramtrans", "jayram-transport");
    } else if i == 9 {
      Split(Clients[9], "aidatours", "client-partner");
    } else {
      Split(Clients[10], "brainlines", "brothers-solar-security");
    }
    PrimaryNotFallback(Clients[i]);
  }

  /** Two words of unreserved characters joined by a space. */
  lemma EncodeSpaced(a: string, b: string)
    requires forall k :: 0 <= k < |a| ==> Unreserved(a[k])
    requires forall k :: 0 <= k < |b| ==> Unreserved(b[k])
    ensures EncodeUriComponent(a + " " + b) == a + "%20" + b
  {
    EncodeSpace();
    EncodeUnreservedIdentity(a);
    EncodeUnreservedIdentity(b);
    EncodeJoin(a, " ", b, "%20");
  }

  lemma EncodeJoin(a: string, sep: string, b: string, esep: string)
    requires EncodeUriComponent(a) == a && EncodeUriComponent(b) == b
    requires EncodeUriComponent(sep) == esep
    ensures EncodeUriComponent(a + sep + b) == a + esep + b
  {
    EncodeAppend(sep, b);
    EncodeAppend(a, sep + b);
    assert a + sep + b == a + (sep + b);
    assert a + esep + b == a + (esep + b);
  }

  /** The first card's logo path, with its space encoded. */
  lemma FirstClientPrimarySrc()
    ensures PrimarySrc(Clients[0]) == "/client-logos/indian%20Army.png"
  {
    assert Clients[0].file == "indian" + " " + "Army.png";
    IndianArmySrc(Clients[0].file);
  }

  lemma IndianArmySrc(file: string)
    requires file == "indian" + " " + "Army.png"
    ensures LogoDir + EncodeUriComponent(file) == "/client-logos/indian%20Army.png"
  {
    var a, b := "indian", "Army.png";
    assert Unreserved(a[0]) && Unreserved(a[1]) && Unreserved(a[2]) && Unreserved(a[3]) && Unreserved(a[4]) && Unreserved(a[5]);
    assert Unreserved(b[0]) && Unreserved(b[1]) && Unreserved(b[2]) && Unreserved(b[3]);
    assert Unreserved(b[4]) && Unreserved(b[5]) && Unreserved(b[6]) && Unreserved(b[7]);
    EncodeSpaced(a, b);
  }

  /** One logo card: its client, the image source it shows and whether the mouse is over it. */
  class LogoCard {
    var client: ClientLogo
    var logoSrc: string
    var hovered: bool

    /** The first render: the primary file. */
    constructor(c: ClientLogo)
      ensures client == c && logoSrc == PrimarySrc(c) && !hovered
    {
      client := c;
      logoSrc := PrimarySrc(c);
      hovered := false;
    }

    /** The image failed to load: show the fallback, unless it is already shown. */
    method OnError()
      modifies this
      ensures logoSrc == FallbackSrc(client)
      ensures old(logoSrc) == FallbackSrc(client) ==> logoSrc == old(logoSrc)
      ensures client == old(client) && hovered == old(hovered)
    {
      var fallbackSrc := LogoDir + EncodeUriComponent(client.fallbackFile);
      if logoSrc != fallbackSrc {
        logoSrc := fallbackSrc;
      }
    }

    /** A new `client` prop; the effect on `client.file` goes back to the primary file when it changed. */
    method SetClient(c: ClientLogo)
      modifies this
      ensures client == c && hovered == old(hovered)
      ensures c.file != old(client).file ==> logoSrc == PrimarySrc(c)
      ensures c.file == old(client).file ==> logoSrc == old(logoSrc)
    {
      var fileChanged := c.file != client.file;
      client := c;
      if fileChanged {
        logoSrc := LogoDir + EncodeUriComponent(c.file);
      }
    }

    method OnMouseEnter()
      modifies this
      ensures hovered && client == old(client) && logoSrc == old(logoSrc)
    {
      hovered := true;
    }

    method OnMouseLeave()
      modifies this
      ensures !hovered && client == old(client) && logoSrc == old(logoSrc)
    {
      hovered := false;
    }
  }

  // ---------------------------------------------------------------------------------------------
  // The statistics

  /** `Math.max(year - 2019, 1)` */
  function YearsOfTrust(year: int): (r: int)
    ensures r >= 1
    ensures year >= 2020 ==> r == year - 2019
    ensures year <= 2020 ==> r == 1
  {
    if year - 2019 > 1 then year - 2019 else 1
  }

  /** `Math.min(elapsed / duration, 1)` */
  function Progress(elapsed: real, duration: real): (p: real)
    requires duration > 0.0
    ensures p <= 1.0
    ensures p == 1.0 <==> elapsed >= duration
    ensures elapsed >= 0.0 ==> p >= 0.0
  {
    if elapsed / duration < 1.0 then elapsed / duration else 1.0
  }

  /** `Math.floor(p * target)`: the value the counter shows after `elapsed` milliseconds. */
  function CountAt(target: int, duration: real, elapsed: real): (count: int)
    requires duration > 0.0
    ensures elapsed >= duration ==> count == target
    ensures elapsed <= 0.0 && target >= 0 ==> count <= 0
    ensures 0.0 <= elapsed && 0 <= target ==> 0 <= count <= target
  {
    var p := Progress(elapsed, duration);
    assert 0.0 <= p && 0 <= target ==> 0.0 <= p * target as real <= target as real by {
      if 0.0 <= p && 0 <= target {
        ProductBounds(p, target as real);
      }
    }
    assert p <= 0.0 && 0 <= target ==> p * target as real <= 0.0 by {
      if p <= 0.0 && 0 <= target {
        assert (-p) * target as real >= 0.0;
      }
    }
    (p * target as real).Floor
  }

  lemma ProductBounds(p: real, t: real)
    requires 0.0 <= p <= 1.0 && 0.0 <= t
    ensures 0.0 <= p * t <= t
  {
    assert (1.0 - p) * t >= 0.0;
  }

  /** The shown count never goes down as time passes. */
  lemma CountMonotone(target: int, duration: real, e1: real, e2: real)
    requires duration > 0.0 && 0 <= target && e1 <= e2
    ensures CountAt(target, duration, e1) <= CountAt(target, duration, e2)
  {
    var p1, p2 := Progress(e1, duration), Progress(e2, duration);
    assert e1 / duration <= e2 / duration by {
      assert (e2 - e1) / duration >= 0.0;
      assert e2 / duration - e1 / duration == (e2 - e1) / duration;
    }
    assert p1 <= p2;
    assert (p2 - p1) * target as real >= 0.0;
    assert p1 * target as real <= p2 * target as real;
  }

  /** JavaScript truthiness of `start: number | null` (NaN does not occur). */
  predicate Falsy(start: Option<real>)
  {
    start.None? || start.value == 0.0
  }

  /** One activation of `useCountUp`: the frame callback with its captured start time. */
  class CountUp {
    const target: int
    const duration: real
    var start: Option<real>
    var count: int

    /** The effect has just run: `start` is null; the counter shows what it showed before. */
    constructor(target0: int, duration0: real, count0: int)
      ensures target == target0 && duration == duration0 && start == None && count == count0
    {
      target := target0;
      duration := duration0;
      start := None;
      count := count0;
    }

    /**
     * `tick(ts)`: the first frame (or any frame while `start` is falsy) fixes the start time; the
     * count is the floor of the progress times the target; `again` asks for another frame.
     */
    method Tick(ts: real) returns (again: bool)
      requires duration > 0.0
      modifies this
      ensures start == Some(if Falsy(old(start)) then ts else old(start).value)
      ensures count == CountAt(target, duration, ts - start.value)
      ensures again <==> ts - start.value < duration
      ensures !again ==> count == target
      ensures Falsy(old(start)) && target >= 0 ==> count == 0
    {
      if Falsy(start) {
        start := Some(ts);
      }
      var p := Progress(ts - start.value, duration);
      count := CountAt(target, duration, ts - start.value);
      again := p < 1.0;
    }
  }

  // ---------------------------------------------------------------------------------------------
  // The visibility latch

  /** Some callback of the intersection observer saw the section. */
  predicate AnyIntersecting(entries: seq<bool>)
  {
    exists i :: 0 <= i < |entries| && entries[i]
  }

  /** `visible`, set by the intersection observer and never cleared. */
  class VisibilityLatch {
    var visible: bool
    /** The `isIntersecting` flags of the callbacks so far. */
    ghost var entries: seq<bool>

    ghost predicate Valid()
      reads this
    {
      visible == AnyIntersecting(entries)
    }

    constructor()
      ensures Valid() && !visible && entries == []
    {
      visible := false;
      entries := [];
    }

    /** `if (e.isIntersecting) setVisible(true)` */
    method OnIntersect(isIntersecting: bool)
      requires Valid()
      modifies this
      ensures Valid() && entries == old(entries) + [isIntersecting]
      ensures visible == (old(visible) || isIntersecting)
    {
      if isIntersecting {
        visible := true;
      }
      entries := entries + [isIntersecting];
      assert old(visible) ==> entries[IndexOfTrue(old(entries))];
      assert isIntersecting ==> entries[|entries| - 1];
    }
  }

  /** A witness for `AnyIntersecting`. */
  function IndexOfTrue(entries: seq<bool>): (i: nat)
    requires AnyIntersecting(entries)
    ensures i < |entries| && entries[i]
  {
    if entries[0] then 0
    else
      assert AnyIntersecting(entries[1..]) by {
        var j :| 0 <= j < |entries| && entries[j];
        assert entries[1..][j - 1];
      }
      1 + IndexOfTrue(entries[1..])
  }

  /** Once seen, the section stays visible whatever the later callbacks report. */
  lemma {:induction false} LatchStaysSet(entries: seq<bool>, later: seq<bool>)
    requires AnyIntersecting(entries)
    ensures AnyIntersecting(entries + later)
  {
    var i := IndexOfTrue(entries);
    assert (entries + later)[i];
  }
}
