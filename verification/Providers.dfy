/** The "namespace/name" texts: batch keys and the Machine reference on a NodeClaim. */
module Providers {
  import opened Common
  import opened Text
  import opened Machines

  /** `CreateInput.BatchKey` and `DeleteInput.BatchKey`; also the reference bind prints. */
  function Print(k: Key): string { k.ns + "/" + k.name }

  function ParseMachineAnnotation(value: string): Outcome<Key> {
    var parts := Split(value, '/');
    if |parts| != 2 then Failed
    else
      var ns, name := TrimSpace(parts[0]), TrimSpace(parts[1]);
      if ns == "" || name == "" then Failed else Ok(Key(ns, name))
  }

  /** Survives printing and parsing: no slash, nothing to trim, not empty. */
  predicate CleanPart(p: string) { p != "" && '/' !in p && TrimSpace(p) == p }
  predicate Clean(k: Key) { CleanPart(k.ns) && CleanPart(k.name) }

  lemma TwoParts(ns: string, name: string)
    requires '/' !in ns
    ensures Split(ns + "/" + name, '/') == [ns] + Split(name, '/')
    ensures '/' !in name ==> Split(ns + "/" + name, '/') == [ns, name]
  {
    SplitFirst(ns, '/', name);
    if '/' !in name { SplitNone(name, '/'); }
  }

  /** Two parts come from exactly one slash. */
  lemma PartsOf(value: string)
    requires |Split(value, '/')| == 2
    ensures var p := Split(value, '/'); value == p[0] + "/" + p[1] && '/' !in p[0] && '/' !in p[1]
  {
  }

  /** The parser accepts exactly one slash between two sides that are not blank. */
  lemma ParseAcceptsIff(value: string)
    ensures ParseMachineAnnotation(value).Ok? <==>
      exists ns, name :: value == ns + "/" + name && '/' !in ns && '/' !in name && !Blank(ns) && !Blank(name)
  {
    if ParseMachineAnnotation(value).Ok? {
      PartsOf(value);
      var p := Split(value, '/');
      TrimSpaceFacts(p[0]);
      TrimSpaceFacts(p[1]);
    }
    forall ns, name | value == ns + "/" + name && '/' !in ns && '/' !in name && !Blank(ns) && !Blank(name)
      ensures ParseMachineAnnotation(value).Ok?
    {
      TwoParts(ns, name);
      TrimSpaceFacts(ns);
      TrimSpaceFacts(name);
    }
  }

  /** What it returns is clean, so printing and parsing again changes nothing. */
  lemma ParseIsStable(value: string)
    requires ParseMachineAnnotation(value).Ok?
    ensures var k := ParseMachineAnnotation(value).value; Clean(k) && ParseMachineAnnotation(Print(k)) == Ok(k)
  {
    PartsOf(value);
    var p := Split(value, '/');
    TrimSpaceFacts(p[0]);
    TrimSpaceFacts(p[1]);
    PrintParseIff(ParseMachineAnnotation(value).value);
  }

  /** A printed reference parses back to itself exactly when its parts are clean. */
  lemma PrintParseIff(k: Key)
    ensures ParseMachineAnnotation(Print(k)) == Ok(k) <==> Clean(k)
  {
    if Clean(k) {
      TwoParts(k.ns, k.name);
    }
    if ParseMachineAnnotation(Print(k)) == Ok(k) {
      PartsOf(Print(k));
      var p := Split(Print(k), '/');
      TrimSpaceFacts(p[0]);
      TrimSpaceFacts(p[1]);
    }
  }

  /** Batch keys tell MachineDeployments apart as long as namespaces have no slash. */
  lemma BatchKeyInjective(k: Key, l: Key)
    requires '/' !in k.ns && '/' !in l.ns && Print(k) == Print(l)
    ensures k == l
  {
    FindAfter(k.ns, '/', k.name);
    FindAfter(l.ns, '/', l.name);
    assert k.ns == Print(k)[..|k.ns|] && l.ns == Print(l)[..|l.ns|];
    assert k.name == Print(k)[|k.ns| + 1..] && l.name == Print(l)[|l.ns| + 1..];
  }

  /** With a slash in a namespace two deployments can share a key. */
  lemma BatchKeyCollision(a: string, b: string, c: string)
    ensures Print(Key(a + "/" + b, c)) == Print(Key(a, b + "/" + c)) && Key(a + "/" + b, c) != Key(a, b + "/" + c)
  {
    assert a + "/" + b + "/" + c == a + "/" + (b + "/" + c);
    assert |a + "/" + b| != |a|;
  }

  /** A name as Kubernetes admits it: lowercase letters, digits, '-' and '.'. */
  predicate Plain(p: string) {
    p != "" && forall c | c in p :: 'a' <= c <= 'z' || '0' <= c <= '9' || c == '-' || c == '.'
  }

  predicate Padding(p: string) { forall c | c in p :: c in " \t\r\n" }

  lemma PlainIsSolid(p: string)
    requires Plain(p)
    ensures '/' !in p && forall c | c in p :: !IsSpace(c)
  {
    forall c | c in p
      ensures !IsSpace(c)
    {
      AsciiSpaces(c);
    }
  }

  lemma PaddedPart(a: string, p: string, b: string)
    requires Padding(a) && Plain(p) && Padding(b)
    ensures TrimSpace(a + p + b) == p && '/' !in a + p + b
  {
    PlainIsSolid(p);
    assert p[0] in p && p[|p| - 1] in p;
    TrimSpaceIs(a, p, b);
  }

  /** Names that Kubernetes admits parse back, printed plainly or padded with blanks. */
  lemma PlainNamesParse(k: Key, a: string, b: string, c: string, e: string)
    requires Plain(k.ns) && Plain(k.name) && Padding(a) && Padding(b) && Padding(c) && Padding(e)
    ensures ParseMachineAnnotation((a + k.ns + b) + "/" + (c + k.name + e)) == Ok(k)
    ensures ParseMachineAnnotation(Print(k)) == Ok(k)
  {
    PaddedPart(a, k.ns, b);
    PaddedPart(c, k.name, e);
    TwoParts(a + k.ns + b, c + k.name + e);
    PaddedPart("", k.ns, "");
    PaddedPart("", k.name, "");
    assert "" + k.ns + "" == k.ns && "" + k.name + "" == k.name;
    TwoParts(k.ns, k.name);
  }

  /** With nothing but blanks on one side there is no reference. */
  lemma BlankSideFails(a: string, b: string)
    requires '/' !in a && '/' !in b && (Padding(a) || Padding(b))
    ensures ParseMachineAnnotation(a + "/" + b).Failed?
  {
    TwoParts(a, b);
    TrimSpaceFacts(a);
    TrimSpaceFacts(b);
  }
}
