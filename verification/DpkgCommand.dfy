/** The list of installed packages, printed by dpkg-query with one format and parsed back. */
module DpkgCommand {
  import opened Wrappers
  import opened Strings

  const DPKG_OUTPUT_FIELDS := ["Package", "Version", "Architecture", "Section", "binary:Summary", "Homepage"]

  const SEPARATOR := '|'

  /** A field the line is too short for is undefined. */
  type PackageInfo = map<string, Option<string>>

  function ValueAt(values: seq<string>, i: nat): Option<string>
  {
    if i < |values| then Some(values[i]) else None
  }

  /** The first n values in field order, under their names. */
  function NamedUpTo(values: seq<string>, n: nat): PackageInfo
    requires n <= |DPKG_OUTPUT_FIELDS|
  {
    if n == 0 then map[] else NamedUpTo(values, n - 1)[DPKG_OUTPUT_FIELDS[n - 1] := ValueAt(values, n - 1)]
  }

  function Named(values: seq<string>): PackageInfo
  {
    NamedUpTo(values, |DPKG_OUTPUT_FIELDS|)
  }

  /** Fills the record field by field. */
  method ParseDpkgOutputLine(line: string) returns (result: PackageInfo)
    ensures result == Named(Split(line, SEPARATOR))
  {
    var values := Split(line, SEPARATOR);
    result := map[];
    for i := 0 to |DPKG_OUTPUT_FIELDS|
      invariant result == NamedUpTo(values, i)
    {
      result := result[DPKG_OUTPUT_FIELDS[i] := ValueAt(values, i)];
    }
  }

  method GetInstalledPackages(output: string) returns (packages: seq<PackageInfo>)
    ensures packages == Parsed(Split(output, '\n'))
  {
    hide Named;
    var lines := Split(output, '\n');
    packages := [];
    for i := 0 to |lines|
      invariant |packages| == i && forall k :: 0 <= k < i ==> packages[k] == Named(Split(lines[k], SEPARATOR))
    {
      var package_ := ParseDpkgOutputLine(lines[i]);
      packages := packages + [package_];
    }
  }

  function Parsed(lines: seq<string>): seq<PackageInfo>
  {
    seq(|lines|, i requires 0 <= i < |lines| => Named(Split(lines[i], SEPARATOR)))
  }

  // ------------------------------------------------------------------ what dpkg-query prints

  /** The argument that names the format: each field in its own braces, a separator between, and an escaped newline. */
  function BuildShowFormatArgument(): string
  {
    "--showformat='" + Join(Wrapped(DPKG_OUTPUT_FIELDS), SEPARATOR) + "\\n'"
  }

  function Wrapped(fields: seq<string>): seq<string>
  {
    if fields == [] then [] else ["${" + fields[0] + "}"] + Wrapped(fields[1..])
  }

  /** One value for each field of the format. */
  predicate IsPackage(values: seq<string>)
  {
    |values| == |DPKG_OUTPUT_FIELDS|
  }

  /** The show format: the fields joined by the separator, then a newline. */
  function Printed(packages: seq<seq<string>>): string
  {
    if packages == [] then "" else Join(packages[0], SEPARATOR) + ['\n'] + Printed(packages[1..])
  }

  ghost predicate Clean(values: seq<string>)
  {
    AllFree(values, SEPARATOR) && AllFree(values, '\n')
  }

  /** The record that the text after the last newline gives: an empty name and nothing else. */
  function Phantom(): PackageInfo
  {
    Named([""])
  }

  // ------------------------------------------------------------------ round trip

  lemma {:induction false} LinesOfPrinted(packages: seq<seq<string>>)
    requires forall i :: 0 <= i < |packages| ==> Clean(packages[i])
    ensures var lines := Split(Printed(packages), '\n');
            && |lines| == |packages| + 1 && lines[|packages|] == ""
            && forall i :: 0 <= i < |packages| ==> lines[i] == Join(packages[i], SEPARATOR)
  {
    if packages == [] {
      SplitHead("", '\n', "");
    } else {
      LinesOfPrinted(packages[1..]);
      JoinIsFree(packages[0], SEPARATOR, '\n');
      SplitHead(Join(packages[0], SEPARATOR), '\n', Printed(packages[1..]));
      hide Join;
    }
  }

  lemma {:induction false} NamedAt(values: seq<string>, n: nat, i: nat)
    requires i < n <= |DPKG_OUTPUT_FIELDS|
    ensures DPKG_OUTPUT_FIELDS[i] in NamedUpTo(values, n) && NamedUpTo(values, n)[DPKG_OUTPUT_FIELDS[i]] == ValueAt(values, i)
  {
    FieldsAreDistinct();
    if i < n - 1 { NamedAt(values, n - 1, i); }
  }

  lemma SameNames(a: seq<string>, b: seq<string>, i: nat)
    requires Named(a) == Named(b) && IsPackage(b) && i < |DPKG_OUTPUT_FIELDS|
    ensures i < |a| && a[i] == b[i]
  {
    hide NamedUpTo;
    NamedAt(a, |DPKG_OUTPUT_FIELDS|, i);
    NamedAt(b, |DPKG_OUTPUT_FIELDS|, i);
  }

  lemma FieldsAreDistinct()
    ensures forall i, j :: 0 <= i < j < |DPKG_OUTPUT_FIELDS| ==> DPKG_OUTPUT_FIELDS[i] != DPKG_OUTPUT_FIELDS[j]
  {
    var f := DPKG_OUTPUT_FIELDS;
    assert f[0][0] == 'P' && f[1][0] == 'V' && f[2][0] == 'A' && f[3][0] == 'S' && f[4][0] == 'b' && f[5][0] == 'H';
  }

  /** The packages come back, each under its names, and one phantom record after them. */
  ghost predicate ComesBack(packages: seq<seq<string>>)
  {
    var lines := Split(Printed(packages), '\n');
    && |lines| == |packages| + 1
    && Named(Split(lines[|packages|], SEPARATOR)) == Phantom()
    && forall i :: 0 <= i < |packages| ==> Named(Split(lines[i], SEPARATOR)) == Named(packages[i])
  }

  /**
   * Main result: parsing what was printed gives the packages back, and exactly one phantom record, if
   * and only if no field holds a separator or a newline.
   */
  lemma PackagesRoundTripIff(packages: seq<seq<string>>)
    requires forall i :: 0 <= i < |packages| ==> IsPackage(packages[i])
    ensures ComesBack(packages) <==> forall i :: 0 <= i < |packages| ==> Clean(packages[i])
  {
    hide Named, Printed;
    var lines := Split(Printed(packages), '\n');
    if forall i :: 0 <= i < |packages| ==> Clean(packages[i]) {
      LinesOfPrinted(packages);
      SplitHead("", SEPARATOR, "");
      forall i | 0 <= i < |packages| ensures Split(lines[i], SEPARATOR) == packages[i] {
        SplitOfJoin(packages[i], SEPARATOR);
      }
    }
    if ComesBack(packages) {
      SplitIsFree(Printed(packages), '\n');
      forall i | 0 <= i < |packages| ensures Clean(packages[i]) {
        var values := Split(lines[i], SEPARATOR);
        SplitIsFree(lines[i], SEPARATOR);
        PiecesAreFree(lines[i], SEPARATOR, '\n');
        forall k | 0 <= k < |packages[i]| ensures SEPARATOR !in packages[i][k] && '\n' !in packages[i][k] {
          SameNames(values, packages[i], k);
        }
      }
    }
  }

  // ------------------------------------------------------------------ columns

  /** Each column under its own name, in the order they are printed in; what is missing is undefined. */
  lemma ColumnsByName(values: seq<string>)
    ensures var p := Named(values);
            && p.Keys == {"Package", "Version", "Architecture", "Section", "binary:Summary", "Homepage"}
            && p["Package"] == (if |values| > 0 then Some(values[0]) else None)
            && p["Version"] == (if |values| > 1 then Some(values[1]) else None)
            && p["Architecture"] == (if |values| > 2 then Some(values[2]) else None)
            && p["Section"] == (if |values| > 3 then Some(values[3]) else None)
            && p["binary:Summary"] == (if |values| > 4 then Some(values[4]) else None)
            && p["Homepage"] == (if |values| > 5 then Some(values[5]) else None)
  {
    NamesUpTo(values, 6);
    hide NamedUpTo;
    NamedAt(values, 6, 0);
    NamedAt(values, 6, 1);
    NamedAt(values, 6, 2);
    NamedAt(values, 6, 3);
    NamedAt(values, 6, 4);
    NamedAt(values, 6, 5);
  }

  lemma {:induction false} NamesUpTo(values: seq<string>, n: nat)
    requires n <= |DPKG_OUTPUT_FIELDS|
    ensures NamedUpTo(values, n).Keys == set i | 0 <= i < n :: DPKG_OUTPUT_FIELDS[i]
  {
    if n > 0 { NamesUpTo(values, n - 1); }
  }

  function InBraces(name: string): string
  {
    "${" + name + "}"
  }

  /** The columns are asked for in that order, with the separator the parser splits at. */
  lemma ShowFormat()
    ensures Split(BuildShowFormatArgument(), '|') ==
            ["--showformat='" + InBraces("Package"), InBraces("Version"), InBraces("Architecture"), InBraces("Section"),
             InBraces("binary:Summary"), InBraces("Homepage") + "\\n'"]
  {
    var f := DPKG_OUTPUT_FIELDS;
    var parts := ["--showformat='" + InBraces(f[0]), InBraces(f[1]), InBraces(f[2]), InBraces(f[3]), InBraces(f[4]), InBraces(f[5]) + "\\n'"];
    assert '|' !in "--showformat='" && '|' !in "\\n'";
    forall i | 0 <= i < 6 ensures '|' !in InBraces(f[i]) { FieldsAreFree(i); }
    assert AllFree(parts, '|');
    forall i | 0 <= i < 6 ensures |Wrapped(f)| == 6 && Wrapped(f)[i] == InBraces(f[i]) { WrappedAt(f, i); }
    assert Wrapped(f) == [InBraces(f[0]), InBraces(f[1]), InBraces(f[2]), InBraces(f[3]), InBraces(f[4]), InBraces(f[5])];
    hide Join, Wrapped, InBraces;
    JoinOfSix(InBraces(f[0]), InBraces(f[1]), InBraces(f[2]), InBraces(f[3]), InBraces(f[4]), InBraces(f[5]), '|');
    JoinOfSix(parts[0], parts[1], parts[2], parts[3], parts[4], parts[5], '|');
    Regroup("--showformat='", InBraces(f[0]), ['|'], parts[1], parts[2], parts[3], parts[4], InBraces(f[5]), "\\n'");
    SplitOfJoin(parts, '|');
  }

  lemma FieldsAreFree(i: nat)
    requires i < |DPKG_OUTPUT_FIELDS|
    ensures '|' !in InBraces(DPKG_OUTPUT_FIELDS[i])
  {
    assert '|' !in DPKG_OUTPUT_FIELDS[i];
  }

  lemma Regroup(head: string, a: string, sep: string, b: string, c: string, d: string, e: string, f: string, tail: string)
    ensures head + (a + sep + (b + sep + (c + sep + (d + sep + (e + sep + f))))) + tail
         == (head + a) + sep + (b + sep + (c + sep + (d + sep + (e + sep + (f + tail)))))
  {
  }

  lemma {:induction false} WrappedAt(fields: seq<string>, i: nat)
    requires i < |fields|
    ensures |Wrapped(fields)| == |fields| && Wrapped(fields)[i] == InBraces(fields[i])
  {
    if |fields| > 1 { WrappedAt(fields[1..], if i > 0 then i - 1 else 0); }
  }
}
