/** request/builder/MultipartBuilder.kt: a `multipart/form-data` body
    (RFC 7578) built from fields and files. Each part opens with
    the delimiter `--boundary CRLF` and the body ends with the close
    delimiter `--boundary-- CRLF` (RFC 2046, section 5.1.1). The boundary
    is `XHttpBoundary` followed by the clock reading in milliseconds; the
    clock is a parameter here. */
module MultipartDsl {
  import opened Base
  import Utf8

  const CRLF: string := "\r\n"

  /** `"XHttpBoundary${System.currentTimeMillis()}"`. */
  function Boundary(clockMillis: nat): string {
    "XHttpBoundary" + Decimal(clockMillis)
  }

  /** `--boundary CRLF`, which opens every part. */
  function Delimiter(boundary: string): string {
    "--" + boundary + CRLF
  }

  /** The text of a plain field part. */
  function FieldText(boundary: string, name: string, value: string): string {
    Delimiter(boundary) + "Content-Disposition: form-data; name=\"" + name + "\"" + CRLF + CRLF + value + CRLF
  }

  /** The header text of a file part, up to the blank line before the bytes. */
  function FileHeaderText(boundary: string, name: string, filename: string, contentType: string): string {
    Delimiter(boundary) + "Content-Disposition: form-data; name=\"" + name + "\"; filename=\"" + filename + "\"" + CRLF
      + "Content-Type: " + contentType + CRLF + CRLF
  }

  function FieldPart(boundary: string, name: string, value: string): Bytes {
    Utf8.Encode(FieldText(boundary, name, value))
  }

  function FilePart(boundary: string, name: string, filename: string, bytes: Bytes, contentType: string): Bytes {
    Utf8.Encode(FileHeaderText(boundary, name, filename, contentType)) + bytes + Utf8.Encode(CRLF)
  }

  /** `"--$boundary--\r\n"` as bytes. */
  function Closing(boundary: string): Bytes {
    Utf8.Encode("--" + boundary + "--" + CRLF)
  }

  function ContentType(boundary: string): string {
    "multipart/form-data; boundary=" + boundary
  }

  /** One statement of a `multipart { }` block. */
  datatype PartCall =
    | Field(name: string, value: string)
    | File(name: string, filename: string, bytes: Bytes, contentType: string)

  function PartOf(boundary: string, call: PartCall): Bytes {
    match call
    case Field(n, v) => FieldPart(boundary, n, v)
    case File(n, f, b, ct) => FilePart(boundary, n, f, b, ct)
  }

  function Parts(boundary: string, block: seq<PartCall>): (ps: seq<Bytes>)
    ensures |ps| == |block| && forall i :: 0 <= i < |block| ==> ps[i] == PartOf(boundary, block[i])
  {
    seq(|block|, i requires 0 <= i < |block| => PartOf(boundary, block[i]))
  }

  /** The body `build()` produces from a list of parts: the parts in order, then the close delimiter. */
  function Body(boundary: string, parts: seq<Bytes>): Bytes {
    Flatten(parts) + Closing(boundary)
  }

  class MultipartBuilder {
    const boundary: string
    var parts: seq<Bytes>

    constructor (clockMillis: nat)
      ensures boundary == Boundary(clockMillis) && parts == []
    {
      boundary := Boundary(clockMillis);
      parts := [];
    }

    /** `field(name, value)`. */
    method Field(name: string, value: string)
      modifies this
      ensures parts == old(parts) + [FieldPart(boundary, name, value)]
    {
      parts := parts + [Utf8.Encode(FieldText(boundary, name, value))];
    }

    /** `file(name, filename, bytes, contentType)`. */
    method File(name: string, filename: string, bytes: Bytes, contentType: string)
      modifies this
      ensures parts == old(parts) + [FilePart(boundary, name, filename, bytes, contentType)]
    {
      parts := parts + [Utf8.Encode(FileHeaderText(boundary, name, filename, contentType)) + bytes + Utf8.Encode(CRLF)];
    }

    /** `build()`: the body and its content type. It only reads `parts`, so
        calling it again gives the same pair. */
    function Build(): (r: (Bytes, string))
      reads this
      ensures r.1 == ContentType(boundary)
      ensures |r.0| == TotalLength(parts) + |Closing(boundary)|
      ensures r.0[TotalLength(parts)..] == Closing(boundary)
      ensures forall i :: 0 <= i < |parts| ==>
        TotalLength(parts[..i]) + |parts[i]| <= TotalLength(parts) &&
        r.0[TotalLength(parts[..i])..TotalLength(parts[..i]) + |parts[i]|] == parts[i]
      ensures parts == [] ==> r.0 == Closing(boundary)
    {
      var body := Flatten(parts) + Utf8.Encode("--" + boundary + "--" + CRLF);
      FlattenLength(parts);
      forall i | 0 <= i < |parts|
        ensures TotalLength(parts[..i]) + |parts[i]| <= TotalLength(parts)
        ensures body[TotalLength(parts[..i])..TotalLength(parts[..i]) + |parts[i]|] == parts[i]
      {
        FlattenPlacesPart(parts, i);
        var off := TotalLength(parts[..i]);
        assert body[off..off + |parts[i]|] == Flatten(parts)[off..off + |parts[i]|];
      }
      (body, "multipart/form-data; boundary=" + boundary)
    }
  }

  /** `MultipartBuilder().apply(block).build()`. */
  method Run(clockMillis: nat, block: seq<PartCall>) returns (body: Bytes, contentType: string)
    ensures body == Body(Boundary(clockMillis), Parts(Boundary(clockMillis), block))
    ensures contentType == ContentType(Boundary(clockMillis))
  {
    var b := new MultipartBuilder(clockMillis);
    for i := 0 to |block|
      invariant b.boundary == Boundary(clockMillis)
      invariant b.parts == Parts(b.boundary, block[..i])
    {
      assert Parts(b.boundary, block[..i + 1]) == Parts(b.boundary, block[..i]) + [PartOf(b.boundary, block[i])];
      match block[i]
      case Field(n, v) => b.Field(n, v);
      case File(n, f, bs, ct) => b.File(n, f, bs, ct);
    }
    assert block[..|block|] == block;
    var r := b.Build();
    body, contentType := r.0, r.1;
  }

  /** Every part begins with the delimiter `--boundary CRLF`. */
  lemma PartOpensWithDelimiter(boundary: string, call: PartCall)
    ensures var d := Utf8.Encode(Delimiter(boundary));
      |d| <= |PartOf(boundary, call)| && PartOf(boundary, call)[..|d|] == d
  {
    var d := Delimiter(boundary);
    match call
    case Field(n, v) =>
      var t := FieldText(boundary, n, v);
      var rest := t[|d|..];
      assert t == d + rest;
      Utf8.EncodeConcat(d, rest);
    case File(n, f, b, ct) =>
      var t := FileHeaderText(boundary, n, f, ct);
      var rest := t[|d|..];
      assert t == d + rest;
      Utf8.EncodeConcat(d, rest);
  }

  /** A field's bytes are the encodings of its pieces, joined: the name and the
      value appear verbatim between the fixed framing. */
  lemma FieldPartLayout(boundary: string, name: string, value: string)
    ensures FieldPart(boundary, name, value) ==
      Utf8.Encode(Delimiter(boundary) + "Content-Disposition: form-data; name=\"") + Utf8.Encode(name)
      + Utf8.Encode("\"" + CRLF + CRLF) + Utf8.Encode(value) + Utf8.Encode(CRLF)
  {
    var a := Delimiter(boundary) + "Content-Disposition: form-data; name=\"";
    var c := "\"" + CRLF + CRLF;
    assert FieldText(boundary, name, value) == a + name + c + value + CRLF;
    Utf8.EncodeConcat(a + name + c + value, CRLF);
    Utf8.EncodeConcat(a + name + c, value);
    Utf8.EncodeConcat(a + name, c);
    Utf8.EncodeConcat(a, name);
  }

  /** The boundary is plain ASCII, so each of its characters is one byte. */
  lemma BoundaryIsAscii(clockMillis: nat)
    ensures Utf8.IsAscii(Boundary(clockMillis))
    ensures |Utf8.Encode(Boundary(clockMillis))| == |Boundary(clockMillis)|
  {
    Utf8.EncodeAscii(Boundary(clockMillis));
  }
}
