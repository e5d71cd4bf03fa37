/** The whole preflight of a frame: byte policy, grammar, key policy (cpp/src/frame_preflight.cpp:459-476). */
module Preflight {
  import opened Text
  import opened JsonGrammar
  import opened JsonScan
  import opened FrameScanners
  import Utf8

  const BOM: string := Utf8.Encode([0xFEFF])

  predicate HasBom(f: string) { BOM <= f }

  /** The root members of an acceptable frame. */
  function Accept(f: string): Option<seq<Field>> {
    if HasBom(f) || !Utf8.Valid(f) then None
    else
      var fields := Scan(f);
      if fields.Some? && KeyPolicy(fields.value) then fields else None
  }

  method HasEscape(key: string) returns (yes: bool)
    ensures yes <==> Escaped(key)
  {
    for k := 0 to |key|
      invariant '\\' !in key[..k]
    {
      if key[k] == '\\' { return true; }
    }
    assert key[..|key|] == key;
    return false;
  }

  /** Literal names, none twice; the scan is quadratic, over at most 32 of them. */
  method CheckKeys(scan: FrameScan) returns (ok: bool)
    requires scan.Valid()
    ensures ok <==> KeyPolicy(scan.Contents())
  {
    ghost var fields := scan.Contents();
    for a := 0 to scan.count
      invariant forall k :: 0 <= k < a ==> !Escaped(fields[k].key)
    {
      assert fields[a] == scan.fields[a];
      var escaped := HasEscape(scan.fields[a].key);
      if escaped { return false; }
    }
    for a := 0 to scan.count
      invariant forall i, j :: 0 <= i < j < a ==> fields[i].key != fields[j].key
    {
      for b := 0 to a
        invariant forall i :: 0 <= i < b ==> fields[i].key != fields[a].key
      {
        assert fields[a] == scan.fields[a] && fields[b] == scan.fields[b];
        if scan.fields[a].key == scan.fields[b].key { return false; }
      }
    }
    return true;
  }

  method FramePreflight(frame: string, scan: FrameScan) returns (ok: bool)
    requires scan.Valid() && scan.count == 0
    modifies scan, scan.fields
    ensures ok <==> Accept(frame).Some?
    ensures ok ==> scan.Valid() && scan.Contents() == Accept(frame).value
  {
    hide Scan, Utf8.Encode, KeyPolicy, Utf8.ValidFrom;
    if BOM <= frame { return false; }
    var utf8 := Utf8.Utf8Valid(frame);
    if !utf8 { return false; }
    var scanner := new FrameScanner(frame, scan);
    ok := scanner.Run();
    if ok { ok := CheckKeys(scan); }
  }

  /** Accepted: no byte order mark, the encoding of Unicode scalars, one object of the grammar, literal
      and distinct root names; and the members recorded are that object's. */
  lemma AcceptIsGrammar(f: string, fields: seq<Field>)
    ensures Accept(f) == Some(fields) <==>
            && !HasBom(f) && KeyPolicy(fields)
            && (exists cps :: Utf8.AllScalars(cps) && Utf8.Encode(cps) == f)
            && (exists lead, root, trail :: IsFrame(f, lead, root, trail) && RootFields(root) == fields)
  {
    hide Scan, IsFrame, HasBom, KeyPolicy, Utf8.Encode, Utf8.Valid;
    Utf8.ValidIsEncoding(f);
    ScanIsGrammar(f);
    if Scan(f).Some? { var lead, root, trail := ScanSound(f); }
  }
}
