/** The HLS master playlist: the text Publish writes and a reader for it. */
module Playlist {
  import opened Basics
  import opened Decimal
  import opened Renditions

  const HEADER: string := "#EXTM3U\n#EXT-X-VERSION:3\n"
  const STREAM_INF: string := "#EXT-X-STREAM-INF:"
  const VARIANT_FILE: string := "/playlist.m3u8"

  function TabledBandwidth(resolution: string): nat {
    if resolution == "360p" then 800000
    else if resolution == "480p" then 1400000
    else if resolution == "720p" then 2500000
    else if resolution == "1080p" then 5000000
    else if resolution == "original" then 4000000
    else 0
  }

  function Bandwidth(resolution: string): (bw: nat)
    ensures bw > 0
  {
    if TabledBandwidth(resolution) == 0 then 2000000 else TabledBandwidth(resolution)
  }

  /** The bandwidths of the ladder grow with the height; the source has one of its own, any other name another. */
  lemma BandwidthsOf(resolution: string)
    ensures Bandwidth("1080p") == 5000000 && Bandwidth("720p") == 2500000 && Bandwidth("480p") == 1400000
         && Bandwidth("360p") == 800000 && Bandwidth("original") == 4000000
    ensures resolution !in {"1080p", "720p", "480p", "360p", "original"} ==> Bandwidth(resolution) == 2000000
  {
  }

  const BANDWIDTH_IS: string := "BANDWIDTH="

  function InfLine(bandwidth: nat): string {
    STREAM_INF + (BANDWIDTH_IS + Print(bandwidth))
  }

  function Entry(resolution: string): string {
    (InfLine(Bandwidth(resolution)) + ['\n']) + (resolution + VARIANT_FILE + ['\n'])
  }

  function Body(names: seq<string>): string
    decreases |names|
  {
    if names == [] then "" else Entry(names[0]) + Body(names[1..])
  }

  function MasterText(names: seq<string>): string {
    HEADER + Body(names)
  }

  lemma {:induction false} BodyAppend(names: seq<string>, last: string)
    ensures Body(names + [last]) == Body(names) + Entry(last)
    decreases |names|
  {
    if names == [] {
      assert names + [last] == [last];
      assert Body([last]) == Entry(last) + Body([]);
    } else {
      assert (names + [last])[1..] == names[1..] + [last];
      BodyAppend(names[1..], last);
      assert Body(names + [last]) == Entry(names[0]) + (Body(names[1..]) + Entry(last));
    }
  }

  lemma Regroup(a: string, b: string, c: string, d: string)
    ensures a + b + c + d == a + (b + (c + d))
  {
  }

  /** What one turn of the builder adds. */
  lemma TurnAppends(text: string, ready: seq<string>, k: nat)
    requires k < |ready| && text == MasterText(ready[..k])
    ensures text + (InfLine(Bandwidth(ready[k])) + ['\n']) + (ready[k] + VARIANT_FILE + ['\n'])
              == MasterText(ready[..k + 1])
  {
    assert ready[..k] + [ready[k]] == ready[..k + 1];
    BodyAppend(ready[..k], ready[k]);
    Regroup(HEADER, Body(ready[..k]), InfLine(Bandwidth(ready[k])) + ['\n'], ready[k] + VARIANT_FILE + ['\n']);
  }

  /** The builder of Publish: one string grown in a loop over the ready renditions. */
  method BuildMaster(ready: seq<string>) returns (text: string)
    ensures text == MasterText(ready)
  {
    text := HEADER;
    var k := 0;
    while k < |ready|
      invariant 0 <= k <= |ready|
      invariant text == MasterText(ready[..k])
    {
      var bw := TabledBandwidth(ready[k]);
      if bw == 0 {
        bw := 2000000;
      }
      TurnAppends(text, ready, k);
      text := text + (InfLine(bw) + ['\n']);
      text := text + (ready[k] + VARIANT_FILE + ['\n']);
      k := k + 1;
    }
    assert ready[..k] == ready;
  }

  // ---------------------------------------------------------------- a reader (RFC 8216)

  datatype Variant = Variant(bandwidth: nat, uri: string)

  function IndexOf(s: string, c: char): (i: nat)
    ensures i <= |s|
    ensures i < |s| ==> s[i] == c
    ensures forall k :: 0 <= k < i ==> s[k] != c
  {
    if s == "" then 0 else if s[0] == c then 0 else 1 + IndexOf(s[1..], c)
  }

  /** The pieces between separators; a text that ends in one has an empty last piece. */
  function Split(s: string, sep: char): (parts: seq<string>)
    ensures |parts| > 0
    ensures forall k :: 0 <= k < |parts| ==> sep !in parts[k]
    decreases |s|
  {
    var i := IndexOf(s, sep);
    if i == |s| then [s] else [s[..i]] + Split(s[i + 1..], sep)
  }

  /** Lines end in LF or CR LF (section 4.1). */
  function StripCR(line: string): string {
    if line != "" && line[|line| - 1] == '\r' then line[..|line| - 1] else line
  }

  predicate StartsWith(s: string, prefix: string) {
    |prefix| <= |s| && s[..|prefix|] == prefix
  }

  function ParseNumber(s: string): Option<nat> {
    if s == "" || (exists c <- s :: !IsDigit(c)) then None else Some(Read(s))
  }

  /** The BANDWIDTH of an attribute list (section 4.2): NAME=VALUE pairs separated by commas. */
  function ParseBandwidth(attributes: seq<string>): Option<nat>
    decreases |attributes|
  {
    if attributes == [] then None
    else if StartsWith(attributes[0], BANDWIDTH_IS) then ParseNumber(attributes[0][|BANDWIDTH_IS|..])
    else ParseBandwidth(attributes[1..])
  }

  predicate UriLine(line: string) {
    line != "" && line[0] != '#'
  }

  /** Reads lines after the first: an EXT-X-STREAM-INF tag (section 4.3.4.2) must carry a BANDWIDTH and be
      followed by its URI line; a URI line may not stand alone; EXT-X-VERSION (section 4.3.1.2) must
      carry a number; blank lines, comments and other tags are skipped. */
  function ParseLines(lines: seq<string>, pending: Option<nat>): Option<seq<Variant>>
    decreases |lines|
  {
    if lines == [] then (if pending.Some? then None else Some([]))
    else
      var line, rest := StripCR(lines[0]), lines[1..];
      if pending.Some? then
        if !UriLine(line) then None
        else
          match ParseLines(rest, None)
          case None => None
          case Some(more) => Some([Variant(pending.value, line)] + more)
      else if UriLine(line) then None
      else if StartsWith(line, STREAM_INF) then
        var bw := ParseBandwidth(Split(line[|STREAM_INF|..], ','));
        if bw.None? then None else ParseLines(rest, bw)
      else if StartsWith(line, "#EXT-X-VERSION:") && ParseNumber(line[|"#EXT-X-VERSION:"|..]).None? then None
      else ParseLines(rest, None)
  }

  /** A master playlist: the first line is EXTM3U (section 4.3.1.1), the rest as above. */
  function ParseMaster(text: string): Option<seq<Variant>> {
    var lines := Split(text, '\n');
    if StripCR(lines[0]) != FIRST_LINE then None else ParseLines(lines[1..], None)
  }

  function VariantsOf(names: seq<string>): (vs: seq<Variant>)
    ensures |vs| == |names|
    ensures forall k :: 0 <= k < |names| ==> vs[k] == Variant(Bandwidth(names[k]), names[k] + VARIANT_FILE)
  {
    seq(|names|, k requires 0 <= k < |names| => Variant(Bandwidth(names[k]), names[k] + VARIANT_FILE))
  }

  /** Resolution strings that stay on one line and do not read as a comment. */
  predicate FitsOneLine(name: string) {
    '\n' !in name && (name == "" || name[0] != '#')
  }

  lemma SplitHead(a: string, rest: string, sep: char)
    requires sep !in a
    ensures Split(a + [sep] + rest, sep) == [a] + Split(rest, sep)
  {
    var s := a + [sep] + rest;
    var i := IndexOf(s, sep);
    assert s[|a|] == sep;
    forall k | 0 <= k < |a| ensures s[k] != sep {
      assert s[k] == a[k] && a[k] in a;
    }
    assert s[..|a|] == a && s[|a| + 1..] == rest;
  }

  lemma SplitWhole(a: string, sep: char)
    requires sep !in a
    ensures Split(a, sep) == [a]
  {
  }

  lemma DropPrefix(prefix: string, rest: string)
    ensures StartsWith(prefix + rest, prefix)
    ensures (prefix + rest)[|prefix|..] == rest
  {
  }

  lemma DigitsAreNeither(n: nat, c: char)
    requires !IsDigit(c)
    ensures c !in Print(n)
  {
  }

  lemma AttributeReads(bw: nat)
    ensures ParseBandwidth(Split(BANDWIDTH_IS + Print(bw), ',')) == Some(bw)
  {
    var digits := Print(bw);
    DropPrefix(BANDWIDTH_IS, digits);
    DigitsAreNeither(bw, ',');
    assert ',' !in BANDWIDTH_IS;
    SplitWhole(BANDWIDTH_IS + digits, ',');
    ReadPrint(bw);
  }

  lemma InfLineReads(bw: nat)
    ensures var line := InfLine(bw);
            && '\n' !in line && StripCR(line) == line && !UriLine(line) && StartsWith(line, STREAM_INF)
            && ParseBandwidth(Split(line[|STREAM_INF|..], ',')) == Some(bw)
  {
    var attributes := BANDWIDTH_IS + Print(bw);
    DropPrefix(STREAM_INF, attributes);
    AttributeReads(bw);
    DigitsAreNeither(bw, '\n');
    assert '\n' !in STREAM_INF && '\n' !in BANDWIDTH_IS;
    EndsWithDigit(bw, STREAM_INF, BANDWIDTH_IS);
  }

  lemma EndsWithDigit(bw: nat, a: string, b: string)
    ensures var line := a + (b + Print(bw)); StripCR(line) == line
  {
    var digits := Print(bw);
    assert digits[|digits| - 1] in digits;
  }

  lemma UriLineReads(name: string)
    requires FitsOneLine(name)
    ensures var line := name + VARIANT_FILE;
            '\n' !in line && StripCR(line) == line && UriLine(line)
  {
    var line := name + VARIANT_FILE;
    assert line[|line| - 1] == VARIANT_FILE[|VARIANT_FILE| - 1] == '8';
    if name == "" {
      assert line[0] == '/';
    } else {
      assert line[0] == name[0];
    }
  }

  lemma FourPieces(inf: string, uri: string, rest: string)
    ensures ((inf + ['\n']) + (uri + ['\n'])) + rest == inf + ['\n'] + (uri + ['\n'] + rest)
  {
  }

  lemma EntryThenRest(name: string, rest: string, vs: seq<Variant>)
    requires FitsOneLine(name)
    requires ParseLines(Split(rest, '\n'), None) == Some(vs)
    ensures ParseLines(Split(Entry(name) + rest, '\n'), None)
         == Some([Variant(Bandwidth(name), name + VARIANT_FILE)] + vs)
  {
    var inf, uri := InfLine(Bandwidth(name)), name + VARIANT_FILE;
    InfLineReads(Bandwidth(name));
    UriLineReads(name);
    FourPieces(inf, uri, rest);
    SplitHead(inf, uri + ['\n'] + rest, '\n');
    SplitHead(uri, rest, '\n');
    EntryReads(inf, uri, Split(rest, '\n'), Bandwidth(name), vs);
  }

  lemma {:induction false} BodyReads(names: seq<string>)
    requires forall n <- names :: FitsOneLine(n)
    ensures ParseLines(Split(Body(names), '\n'), None) == Some(VariantsOf(names))
    decreases |names|
  {
    if names == [] {
      NothingReads();
    } else {
      BodyReads(names[1..]);
      EntryThenRest(names[0], Body(names[1..]), VariantsOf(names[1..]));
      VariantsByHead(names);
    }
  }

  lemma NothingReads()
    ensures ParseLines(Split("", '\n'), None) == Some([])
  {
    SplitWhole("", '\n');
    assert ParseLines([""], None) == ParseLines([""][1..], None);
  }

  lemma VariantsByHead(names: seq<string>)
    requires names != []
    ensures VariantsOf(names) == [Variant(Bandwidth(names[0]), names[0] + VARIANT_FILE)] + VariantsOf(names[1..])
  {
  }

  lemma EntryReads(inf: string, uri: string, rest: seq<string>, bw: nat, vs: seq<Variant>)
    requires StripCR(inf) == inf && !UriLine(inf) && StartsWith(inf, STREAM_INF)
    requires ParseBandwidth(Split(inf[|STREAM_INF|..], ',')) == Some(bw)
    requires StripCR(uri) == uri && UriLine(uri)
    requires ParseLines(rest, None) == Some(vs)
    ensures ParseLines([inf] + ([uri] + rest), None) == Some([Variant(bw, uri)] + vs)
  {
    assert ([inf] + ([uri] + rest))[1..] == [uri] + rest;
    assert ([uri] + rest)[1..] == rest;
    assert ParseLines([uri] + rest, Some(bw)) == Some([Variant(bw, uri)] + vs);
  }

  const FIRST_LINE: string := "#EXTM3U"
  const SECOND_LINE: string := "#EXT-X-VERSION:3"

  lemma HeaderLines()
    ensures HEADER == FIRST_LINE + ['\n'] + (SECOND_LINE + ['\n'])
    ensures '\n' !in FIRST_LINE && '\n' !in SECOND_LINE
    ensures StripCR(FIRST_LINE) == FIRST_LINE && StripCR(SECOND_LINE) == SECOND_LINE
  {
  }

  lemma VersionReads(rest: seq<string>)
    ensures ParseLines([SECOND_LINE] + rest, None) == ParseLines(rest, None)
  {
    var line := SECOND_LINE;
    HeaderLines();
    assert ([SECOND_LINE] + rest)[1..] == rest;
    assert !UriLine(line) && |line| < |STREAM_INF|;
    DropPrefix("#EXT-X-VERSION:", "3");
    assert line == "#EXT-X-VERSION:" + "3";
    assert ParseNumber("3").Some?;
  }

  lemma HeaderReads(body: string)
    ensures ParseMaster(HEADER + body) == ParseLines(Split(body, '\n'), None)
  {
    HeaderLines();
    assert HEADER + body == FIRST_LINE + ['\n'] + (SECOND_LINE + ['\n'] + body);
    SplitHead(FIRST_LINE, SECOND_LINE + ['\n'] + body, '\n');
    SplitHead(SECOND_LINE, body, '\n');
    VersionReads(Split(body, '\n'));
    assert ([FIRST_LINE] + ([SECOND_LINE] + Split(body, '\n')))[1..] == [SECOND_LINE] + Split(body, '\n');
  }

  /** Whatever is read, a URI is one line that is not a comment. */
  lemma {:induction false} ReadUrisAreLines(lines: seq<string>, pending: Option<nat>)
    requires forall k :: 0 <= k < |lines| ==> '\n' !in lines[k]
    ensures var r := ParseLines(lines, pending);
            r.Some? ==> forall v <- r.value :: UriLine(v.uri) && '\n' !in v.uri
    decreases |lines|
  {
    if lines != [] {
      var line := StripCR(lines[0]);
      assert '\n' !in line;
      ReadUrisAreLines(lines[1..], None);
      if pending.None? && StartsWith(line, STREAM_INF) {
        ReadUrisAreLines(lines[1..], ParseBandwidth(Split(line[|STREAM_INF|..], ',')));
      }
    }
  }

  /** Round trip: reading the built text gives back exactly the renditions, in order, each with its
      positive bandwidth and its URI, if and only if every resolution string fits one line. */
  lemma MasterRoundTrip(names: seq<string>)
    ensures ParseMaster(MasterText(names)) == Some(VariantsOf(names)) <==> forall n <- names :: FitsOneLine(n)
  {
    HeaderReads(Body(names));
    if forall n <- names :: FitsOneLine(n) {
      BodyReads(names);
    } else if ParseMaster(MasterText(names)) == Some(VariantsOf(names)) {
      ReadUrisAreLines(Split(Body(names), '\n'), None);
      forall k | 0 <= k < |names| ensures FitsOneLine(names[k]) {
        var v := VariantsOf(names)[k];
        assert v in VariantsOf(names);
        assert v.uri[..|names[k]|] == names[k];
        if names[k] != "" { assert v.uri[0] == names[k][0]; }
      }
    }
  }

  /** The names CreateBatch writes all fit, so whatever it inserted survives the round trip. */
  lemma BatchNamesFit(path: string, w: int, h: int, targets: seq<int>)
    ensures forall n <- Names(BatchFor(path, w, h, targets)) :: FitsOneLine(n) && QualifiedName(n)
  {
    var batch := BatchFor(path, w, h, targets);
    forall k | 0 <= k < |batch| ensures QualifiedName(batch[k].resolution) {
      if k > 0 { PrintIsQualified(targets[k - 1]); }
    }
  }

  // ---------------------------------------------------------------- object keys

  /** The object keys the pipeline uses for one video. */
  datatype Key = OriginalKey | ThumbnailKey | Mp4Key(resolution: string) | VariantKey(resolution: string) | MasterKey

  /** The part of a key's text that is not the video's. */
  function Tail(key: Key): string {
    match key
    case OriginalKey => "original"
    case ThumbnailKey => "thumbnail.jpg"
    case Mp4Key(res) => res + ".mp4"
    case VariantKey(res) => "hls/" + res + VARIANT_FILE
    case MasterKey => "hls/master.m3u8"
  }

  function KeyText(videoID: string, key: Key): string {
    "videos/" + videoID + "/" + Tail(key)
  }

  /** The object names as they travel between the services. */
  lemma KeyTexts(videoID: string, res: string)
    ensures KeyText(videoID, OriginalKey) == "videos/" + videoID + "/" + "original"
    ensures KeyText(videoID, ThumbnailKey) == "videos/" + videoID + "/" + "thumbnail.jpg"
    ensures KeyText(videoID, Mp4Key(res)) == "videos/" + videoID + "/" + (res + ".mp4")
    ensures KeyText(videoID, VariantKey(res)) == "videos/" + videoID + "/" + ("hls/" + res + "/playlist.m3u8")
    ensures KeyText(videoID, MasterKey) == "videos/" + videoID + "/" + "hls/master.m3u8"
  {
  }

  /** The text after the last slash. */
  function LastPart(s: string): string
    decreases |s|
  {
    if s == "" || s[|s| - 1] == '/' then "" else LastPart(s[..|s| - 1]) + [s[|s| - 1]]
  }

  lemma {:induction false} LastPartOf(dir: string, file: string)
    requires '/' !in file && dir != "" && dir[|dir| - 1] == '/'
    ensures LastPart(dir + file) == file
    decreases |file|
  {
    var s := dir + file;
    if file == "" {
      assert s == dir;
    } else {
      var n := |file| - 1;
      assert s[..|s| - 1] == dir + file[..n];
      assert s[|s| - 1] == file[n];
      assert file[n] in file;
      LastPartOf(dir, file[..n]);
      assert file == file[..n] + [file[n]];
    }
  }

  lemma {:induction false} LastPartIsSuffix(s: string)
    ensures |LastPart(s)| <= |s|
    ensures s[|s| - |LastPart(s)|..] == LastPart(s)
    decreases |s|
  {
    if s != "" && s[|s| - 1] != '/' {
      LastPartIsSuffix(s[..|s| - 1]);
    }
  }

  /** A relative reference replaces the text after the base's last slash (section 5.2.3 of RFC 3986). */
  function Resolve(base: string, reference: string): string {
    LastPartIsSuffix(base);
    base[..|base| - |LastPart(base)|] + reference
  }

  lemma ResolveInDir(dir: string, file: string, reference: string)
    requires '/' !in file && dir != "" && dir[|dir| - 1] == '/'
    ensures Resolve(dir + file, reference) == dir + reference
  {
    LastPartOf(dir, file);
    assert (dir + file)[..|dir|] == dir;
  }

  function HlsDir(videoID: string): string {
    "videos/" + videoID + "/hls/"
  }

  lemma MasterInDir(videoID: string)
    ensures KeyText(videoID, MasterKey) == HlsDir(videoID) + "master.m3u8"
  {
    assert Tail(MasterKey) == "hls/" + "master.m3u8";
  }

  lemma VariantInDir(videoID: string, resolution: string)
    ensures KeyText(videoID, VariantKey(resolution)) == HlsDir(videoID) + (resolution + VARIANT_FILE)
  {
    assert Tail(VariantKey(resolution)) == "hls/" + (resolution + VARIANT_FILE);
  }

  /** The URI in the master names the playlist that Segment stores. */
  lemma VariantUriResolves(videoID: string, resolution: string)
    ensures Resolve(KeyText(videoID, MasterKey), resolution + VARIANT_FILE) == KeyText(videoID, VariantKey(resolution))
  {
    MasterInDir(videoID);
    VariantInDir(videoID, resolution);
    ResolveInDir(HlsDir(videoID), "master.m3u8", resolution + VARIANT_FILE);
  }

  /** Different keys have different texts, also across videos whose ids are equally long, as UUIDs are. */
  lemma KeyTextInjective(v: string, j: Key, w: string, k: Key)
    requires |v| == |w| && KeyText(v, j) == KeyText(w, k)
    ensures v == w && j == k
  {
    var s := KeyText(v, j);
    var n := |"videos/"|;
    assert s[n..n + |v|] == v;
    assert s[n..n + |w|] == w;
    assert s[n + |v| + 1..] == KeyText(w, k)[n + |w| + 1..];
    TailInjective(v, j, w, k);
  }

  lemma TailInjective(v: string, j: Key, w: string, k: Key)
    requires |v| == |w| && KeyText(v, j) == KeyText(w, k)
    ensures j == k
  {
    var n := |"videos/"| + |v| + 1;
    var s := KeyText(v, j);
    assert s == "videos/" + v + "/" + Tail(j) && s == "videos/" + w + "/" + Tail(k);
    assert s[n..] == Tail(j) == Tail(k);
    var t := Tail(j);
    assert t[|t| - 1] == match j case OriginalKey => 'l' case ThumbnailKey => 'g' case Mp4Key(_) => '4' case _ => '8';
    assert t[|t| - 1] == match k case OriginalKey => 'l' case ThumbnailKey => 'g' case Mp4Key(_) => '4' case _ => '8';
    if j.Mp4Key? {
      assert t[..|t| - |".mp4"|] == j.resolution && t[..|t| - |".mp4"|] == k.resolution;
    } else if j.VariantKey? && k.VariantKey? {
      var c := |t| - |VARIANT_FILE|;
      assert t[4..c] == j.resolution && t[4..c] == k.resolution;
    }
  }
}
