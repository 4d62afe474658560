/**
  URLs as the code sees them. The WHATWG URL parser behind `new URL(s)` is
  not modelled: it is a parameter that either rejects its input or yields the
  parsed hostname and pathname. Both the backend resolver and the frontend
  validator then split the pathname into its non-empty segments.
 */
module Url {
  import opened Base
  import opened Strings

  /** The parts of a parsed URL the code reads. */
  datatype ParsedUrl = ParsedUrl(hostname: string, pathname: string)

  /** `new URL(s)`: `None` when the constructor throws. */
  type Parser = string -> Option<ParsedUrl>

  /** `pathname.split('/').filter(Boolean)`. */
  function PathSegments(pathname: string): (r: seq<string>)
    ensures forall k :: 0 <= k < |r| ==> r[k] != "" && '/' !in r[k]
  {
    var pieces := Split(pathname, '/');
    var r := DropEmpty(pieces);
    assert forall k :: 0 <= k < |r| ==> r[k] in pieces;
    r
  }

  /** Segments of a path glued at a slash are the segments of the two halves:
      runs of slashes and leading or trailing slashes contribute nothing. */
  lemma SegmentsConcat(a: string, b: string)
    ensures PathSegments(a + "/" + b) == PathSegments(a) + PathSegments(b)
  {
    assert a + "/" + b == a + ['/'] + b;
    SplitConcat(a, b, '/');
    DropEmptyConcat(Split(a, '/'), Split(b, '/'));
  }

  /** A slash-free string is one segment, or none when it is empty. */
  lemma SegmentsOfSlashFree(s: string)
    requires '/' !in s
    ensures PathSegments(s) == if s == "" then [] else [s]
  {
    SplitSeparatorFree(s, '/');
  }

  /** The canonical path "/p0/p1/..." of non-empty slash-free names has exactly
      those names as segments. */
  lemma {:induction false} SegmentsOfCanonicalPath(parts: seq<string>)
    requires forall k :: 0 <= k < |parts| ==> parts[k] != "" && '/' !in parts[k]
    ensures PathSegments(CanonicalPath(parts)) == parts
    decreases |parts|
  {
    if |parts| == 0 {
      SegmentsOfSlashFree("");
    } else {
      SegmentsOfCanonicalPath(parts[1..]);
      SegmentsConcat("", parts[0] + CanonicalPath(parts[1..]));
      SegmentsConcat(parts[0], CanonicalPath(parts[1..])[1..]);
      SegmentsOfSlashFree("");
      SegmentsOfSlashFree(parts[0]);
      if |parts| == 1 {
        SegmentsOfSlashFree("");
      } else {
        SegmentsConcat("", CanonicalPath(parts[1..])[1..]);
      }
      assert parts == [parts[0]] + parts[1..];
    }
  }

  /** "/" followed by the names joined with "/" ("/" for no names). */
  function CanonicalPath(parts: seq<string>): string
  {
    "/" + Join(parts, "/")
  }
}
