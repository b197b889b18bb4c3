/** The bundler transform that turns the entry module into a live-reload
    client: every chunk of the entry first makes the transform report each
    watched path to the bundler's watcher, then goes out with a script
    prepended that connects back to this server and reloads the page on
    every rebuild. Chunks of any other module pass through untouched. */
module Bundle {
  import opened Text
  import opened Encoding

  /** `${protocol}://${host}:${port}`. */
  function Address(protocol: string, host: string, port: nat): string
  {
    protocol + "://" + host + ":" + DecimalString(port)
  }

  /** The script text before the address, one piece per source line. */
  const SnippetOpen := "\n\n(function () {\n"
  const SnippetRequire := "      const { io } = require('socket.io-client')\n"
  const SnippetConnect := "      const socket = io(\""

  /** The script text after the address. */
  const SnippetTransports := "\", { transports: ['websocket'] })\n"
  const SnippetComment := "      // socket.on('connect', () => console.log('connected'))\n"
  const SnippetReload := "      socket.on('bundle', () => window.location.reload())\n"
  const SnippetClose := "    })()\n\n"

  const SnippetHead := SnippetOpen + SnippetRequire + SnippetConnect
  const SnippetTail := SnippetTransports + SnippetComment + SnippetReload + SnippetClose

  /** The script prepended to the entry module. */
  function Snippet(address: string): string
  {
    SnippetHead + address + SnippetTail
  }

  /** The port can be read back from the address the client connects to:
      it is the decimal text after the address's last `:`. */
  lemma {:induction false} AddressPort(protocol: string, host: string, port: nat)
    ensures var piece := LastPiece(Address(protocol, host, port), ':');
      && piece == DecimalString(port)
      && (forall i :: 0 <= i < |piece| ==> IsDigit(piece[i]))
      && ParseDigits(piece) == port
  {
    var digits := DecimalString(port);
    assert Address(protocol, host, port) == (protocol + "://" + host) + [':'] + digits;
    LastPieceAppend(protocol + "://" + host, ':', digits);
    assert ':' !in digits by {
      forall i | 0 <= i < |digits| ensures digits[i] != ':' {
        assert IsDigit(digits[i]);
      }
    }
    SplitWithout(digits, ':');
    ParseDecimalString(port);
  }

  /** The bytes sent for the snippet are the head's, the address's and the
      tail's, in that order: the address goes into the script unescaped. */
  lemma {:induction false} SnippetBytes(address: string)
    ensures Utf8(Snippet(address)) == Utf8(SnippetHead) + Utf8(address) + Utf8(SnippetTail)
  {
    Utf8Append(SnippetHead, address);
    Utf8Append(SnippetHead + address, SnippetTail);
  }

  /** What the transform pushes for one chunk of module `file`. */
  function Transformed(file: string, entry: string, address: string, chunk: seq<byte>): seq<byte>
  {
    if file != entry then chunk else Utf8(Snippet(address)) + chunk
  }

  /** A chunk of the entry keeps its bytes, behind the snippet; any other
      chunk is passed on as it is. */
  lemma {:induction false} TransformedSpec(file: string, entry: string, address: string, chunk: seq<byte>)
    ensures var out := Transformed(file, entry, address, chunk);
      var snippet := Utf8(Snippet(address));
      && (file != entry ==> out == chunk)
      && (file == entry ==>
            |out| == |snippet| + |chunk| && out[..|snippet|] == snippet && out[|snippet|..] == chunk)
      && |out| >= |chunk| && out[|out| - |chunk|..] == chunk
  {
    var out := Transformed(file, entry, address, chunk);
    var snippet := Utf8(Snippet(address));
    if file == entry {
      assert out[..|snippet|] == snippet;
      assert out[|snippet|..] == chunk;
    }
    assert out[|out| - |chunk|..] == chunk;
  }

  /** The transform stream created for one module of the bundle. */
  class EntryTransform {
    /** The module the stream transforms. */
    const file: string
    /** The entry module's path. */
    const entry: string
    /** The watch set, reported in this order for every chunk of the entry. */
    const watch: seq<string>
    /** The server's protocol, host and port, which the client connects to. */
    const protocol: string
    const host: string
    const port: nat

    /** The paths reported with the `file` event so far. */
    var emitted: seq<string>
    /** The bytes handed on so far. */
    var pushed: seq<byte>

    constructor (file: string, entry: string, watch: seq<string>,
                 protocol: string, host: string, port: nat)
      ensures this.file == file && this.entry == entry && this.watch == watch
      ensures this.protocol == protocol && this.host == host && this.port == port
      ensures emitted == [] && pushed == []
    {
      this.file := file;
      this.entry := entry;
      this.watch := watch;
      this.protocol, this.host, this.port := protocol, host, port;
      emitted := [];
      pushed := [];
    }

    /** `transform(fileData, enc, cb)`: for the entry, one `file` event per
        watched path, in order, then the snippet and the chunk; for any
        other module, the chunk alone. */
    method Write(chunk: seq<byte>)
      modifies this
      ensures emitted == old(emitted) + (if file == entry then watch else [])
      ensures pushed == old(pushed) + Transformed(file, entry, Address(protocol, host, port), chunk)
    {
      if file != entry {
        pushed := pushed + chunk;
        return;
      }
      var i := 0;
      while i < |watch|
        invariant 0 <= i <= |watch|
        invariant emitted == old(emitted) + watch[..i]
        invariant pushed == old(pushed)
      {
        emitted := emitted + [watch[i]];
        i := i + 1;
      }
      pushed := pushed + (Utf8(Snippet(Address(protocol, host, port))) + chunk);
    }
  }
}
