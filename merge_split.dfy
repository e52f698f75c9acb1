/** The `SketchDataMergeSplit` app: every sketch of every loaded file becomes a container
    `{filename, index, sketch, label}` (the label is `caption` here); the containers are sorted by file name and then
    position, listed by label, found again by label through `labelToContainerMap`, and
    the sketches of the labels moved to the right-hand list are downloaded in that list's
    order. The order in which the file reads finish is an input. */
module MergeSplit {
  import opened SketchModel
  import opened JsText
  import opened Ranking

  /** A sketch with the file it came from and its position in that file. */
  datatype Container = Container(filename: string, index: nat, sketch: Sketch, caption: string)

  /** `filename + "[" + index + "] = " + interpretation`. */
  function ContainerLabel(filename: string, index: nat, interpretation: string): string {
    filename + "[" + IntToString(index) + "] = " + interpretation
  }

  //// Loading

  /** The containers of one file, as the `onload` loop makes them. A sketch without a
      shape makes `shapes[0].interpretation` throw. */
  method FileContainers(filename: string, sketches: seq<Sketch>) returns (cs: seq<Container>)
    requires forall j :: 0 <= j < |sketches| ==> HasLabel(sketches[j])
    ensures |cs| == |sketches|
    ensures forall j :: 0 <= j < |cs| ==>
      cs[j] == Container(filename, j, sketches[j], ContainerLabel(filename, j, Label(sketches[j])))
  {
    cs := [];
    var j := 0;
    while j < |sketches|
      invariant 0 <= j <= |sketches| && |cs| == j
      invariant forall k :: 0 <= k < j ==>
        cs[k] == Container(filename, k, sketches[k], ContainerLabel(filename, k, Label(sketches[k])))
    {
      var sketch := sketches[j];
      var caption := ContainerLabel(filename, j, sketch.shapes.value[0].interpretation);
      cs := cs + [Container(filename, j, sketch, caption)];
      j := j + 1;
    }
  }

  /** The part of a label after `filename[`. */
  function LabelTail(index: nat, interpretation: string): string {
    Digits(index) + ("] = " + interpretation)
  }

  lemma LabelSplits(filename: string, index: nat, interpretation: string)
    ensures ContainerLabel(filename, index, interpretation) == (filename + "[") + LabelTail(index, interpretation)
  {
  }

  /** The tail starts with exactly the digits of the position. */
  lemma TailDigits(index: nat, interpretation: string)
    ensures DigitRun(LabelTail(index, interpretation)) == |Digits(index)|
    ensures LabelTail(index, interpretation)[..|Digits(index)|] == Digits(index)
  {
    DigitRunOf(Digits(index), "] = " + interpretation);
  }

  /** Two sketches of the same file never share a label: the label spells out the
      position, and the digits end at the `]`. */
  lemma LabelsDistinctInFile(filename: string, i: nat, j: nat, x: string, y: string)
    requires i != j
    ensures ContainerLabel(filename, i, x) != ContainerLabel(filename, j, y)
  {
    if ContainerLabel(filename, i, x) == ContainerLabel(filename, j, y) {
      var p := filename + "[";
      var u, v := LabelTail(i, x), LabelTail(j, y);
      LabelSplits(filename, i, x);
      LabelSplits(filename, j, y);
      assert u == (p + u)[|p|..] == (p + v)[|p|..] == v;
      TailDigits(i, x);
      TailDigits(j, y);
      assert Digits(i) == Digits(j);
      assert IntToString(i) == Digits(i) && IntToString(j) == Digits(j);
      IntToStringInjective(i, j);
    }
  }

  /** Across files the labels can coincide: a file `a` whose first sketch is labelled
      `b[1] = c`, and a file `a[0] = b` whose second sketch is labelled `c`. */
  lemma LabelsCanCollide()
    ensures ContainerLabel("a", 0, "b[1] = c") == ContainerLabel("a[0] = b", 1, "c")
  {
    assert IntToString(0) == "0";
    assert IntToString(1) == "1";
  }

  //// Ordering

  /** The comparator of `sortAscending`: file names in string order, then positions. */
  function Compare(a: Container, b: Container): int {
    if StringLess(b.filename, a.filename) then 1
    else if StringLess(a.filename, b.filename) then -1
    else if a.index > b.index then 1
    else if a.index < b.index then -1
    else 0
  }

  /** The comparator is antisymmetric, is 0 exactly on containers with the same file name
      and position, and puts `a` first exactly when its file name comes first or the file
      names agree and its position comes first. */
  lemma CompareSpec(a: Container, b: Container)
    ensures Compare(a, b) == -Compare(b, a)
    ensures Compare(a, b) == 0 <==> a.filename == b.filename && a.index == b.index
    ensures Compare(a, b) < 0 <==>
      StringLess(a.filename, b.filename) || (a.filename == b.filename && a.index < b.index)
  {
    StringTrichotomy(a.filename, b.filename);
  }

  /** The comparator orders consistently. */
  lemma CompareTransitive(a: Container, b: Container, c: Container)
    requires Compare(a, b) <= 0 && Compare(b, c) <= 0
    ensures Compare(a, c) <= 0
  {
    StringTrichotomy(a.filename, b.filename);
    StringTrichotomy(b.filename, c.filename);
    StringTrichotomy(a.filename, c.filename);
    if StringLess(a.filename, b.filename) && StringLess(b.filename, c.filename) {
      StringLessTransitive(a.filename, b.filename, c.filename);
    }
  }

  predicate SortedAscending(s: seq<Container>) {
    forall i, j :: 0 <= i < j < |s| ==> Compare(s[i], s[j]) <= 0
  }

  /** `x` placed before the first container it does not come after. */
  function InsertContainer(x: Container, s: seq<Container>): (r: seq<Container>)
    requires SortedAscending(s)
    ensures SortedAscending(r) && multiset(r) == multiset(s) + multiset{x}
    ensures |r| == |s| + 1
    ensures forall k :: 0 <= k < |r| ==> r[k] == x || r[k] in s
  {
    if s == [] || Compare(x, s[0]) <= 0 then
      FirstBeforeAll(x, s);
      [x] + s
    else
      assert s == [s[0]] + s[1..];
      var rest := InsertContainer(x, s[1..]);
      HeadBeforeAll(x, s, rest);
      [s[0]] + rest
  }

  /** A container not after the head of a sorted list is not after any of it. */
  lemma FirstBeforeAll(x: Container, s: seq<Container>)
    requires SortedAscending(s) && (s == [] || Compare(x, s[0]) <= 0)
    ensures SortedAscending([x] + s)
  {
    forall k | 0 < k < |s| ensures Compare(x, s[k]) <= 0 {
      CompareTransitive(x, s[0], s[k]);
    }
  }

  /** The head of a sorted list stays in front when `x`, which comes after it, is put in
      the rest. */
  lemma HeadBeforeAll(x: Container, s: seq<Container>, rest: seq<Container>)
    requires s != [] && SortedAscending(s) && Compare(x, s[0]) > 0
    requires SortedAscending(rest) && forall k :: 0 <= k < |rest| ==> rest[k] == x || rest[k] in s[1..]
    ensures SortedAscending([s[0]] + rest)
  {
    CompareSpec(x, s[0]);
    forall k | 0 <= k < |rest| ensures Compare(s[0], rest[k]) <= 0 {
      if rest[k] != x {
        var j :| 0 <= j < |s[1..]| && s[1..][j] == rest[k];
        assert s[j + 1] == rest[k];
      }
    }
  }

  /** `sortAscending(containers)`: the order the comparator asks the array sort for, a
      rearrangement of the containers. */
  function SortAscending(s: seq<Container>): (r: seq<Container>)
    ensures SortedAscending(r) && multiset(r) == multiset(s)
    ensures |r| == |s|
  {
    if s == [] then []
    else
      assert s == [s[0]] + s[1..];
      InsertContainer(s[0], SortAscending(s[1..]))
  }

  /** After the sort a file's containers come in position order, and the files in name
      order. */
  lemma SortedMeansByFileThenPosition(s: seq<Container>, i: nat, j: nat)
    requires SortedAscending(s) && i < j < |s|
    ensures !StringLess(s[j].filename, s[i].filename)
    ensures s[i].filename == s[j].filename ==> s[i].index <= s[j].index
  {
    CompareSpec(s[i], s[j]);
    StringTrichotomy(s[i].filename, s[j].filename);
  }

  //// The label map

  /** `labelToContainerMap` after `map[c.caption] = c` for each container in turn. */
  function LabelMap(cs: seq<Container>): map<string, Container> {
    if cs == [] then map[]
    else LabelMap(cs[..|cs| - 1])[cs[|cs| - 1].caption := cs[|cs| - 1]]
  }

  /** The map has exactly the labels of the containers. */
  lemma {:induction false} LabelMapKeys(cs: seq<Container>)
    ensures forall l :: l in LabelMap(cs) <==> l in Labels(cs)
  {
    if cs != [] {
      var n := |cs|;
      LabelMapKeys(cs[..n - 1]);
      assert Labels(cs) == Labels(cs[..n - 1]) + [cs[n - 1].caption];
    }
  }

  /** A label leads to the last container that carries it. */
  lemma {:induction false} LabelMapLastWins(cs: seq<Container>, i: nat)
    requires i < |cs|
    requires forall j :: i < j < |cs| ==> cs[j].caption != cs[i].caption
    ensures cs[i].caption in LabelMap(cs) && LabelMap(cs)[cs[i].caption] == cs[i]
  {
    var n := |cs|;
    if i < n - 1 {
      var init := cs[..n - 1];
      assert init[i] == cs[i];
      assert forall j :: i < j < |init| ==> init[j] == cs[j];
      LabelMapLastWins(init, i);
    }
  }

  /** A loaded file: its name and the sketches it holds. */
  datatype SketchFile = SketchFile(name: string, sketches: seq<Sketch>)

  /** Every sketch of every file has a shape to take the label from. */
  predicate Labelled(files: seq<SketchFile>) {
    forall f :: 0 <= f < |files| ==> forall j :: 0 <= j < |files[f].sketches| ==> HasLabel(files[f].sketches[j])
  }

  /** The containers of the files, in the order their reads finished. */
  method GatherFiles(files: seq<SketchFile>) returns (containers: seq<Container>)
    requires Labelled(files)
    ensures containers == Gathered(files)
  {
    containers := [];
    var f := 0;
    while f < |files|
      invariant 0 <= f <= |files|
      invariant containers == Gathered(files[..f])
    {
      var local := FileContainers(files[f].name, files[f].sketches);
      assert local == FileOf(files[f]);
      assert files[..f + 1][..f] == files[..f];
      containers := containers + local;
      f := f + 1;
    }
    assert files[..f] == files;
  }

  /** The list loop of `loadSketches`: each container mapped under its label and its
      label added as an option, in order. */
  method ListContainers(containers: seq<Container>) returns (labelMap: map<string, Container>, options: seq<string>)
    ensures labelMap == LabelMap(containers) && options == Labels(containers)
  {
    labelMap := map[];
    options := [];
    var j := 0;
    while j < |containers|
      invariant 0 <= j <= |containers|
      invariant labelMap == LabelMap(containers[..j])
      invariant options == Labels(containers[..j])
    {
      assert containers[..j + 1][..j] == containers[..j];
      labelMap := labelMap[containers[j].caption := containers[j]];
      options := options + [containers[j].caption];
      j := j + 1;
    }
    assert containers[..j] == containers;
  }

  /** `loadSketches` once every file has been read: the containers of the files, sorted,
      each label mapped to its container and listed in sorted order. */
  method LoadSketches(files: seq<SketchFile>)
    returns (containers: seq<Container>, labelMap: map<string, Container>, options: seq<string>)
    requires Labelled(files)
    ensures multiset(containers) == multiset(Gathered(files)) && SortedAscending(containers)
    ensures labelMap == LabelMap(containers)
    ensures |options| == |containers| && forall k :: 0 <= k < |options| ==> options[k] == containers[k].caption
  {
    containers := GatherFiles(files);
    containers := SortAscending(containers);
    labelMap, options := ListContainers(containers);
  }

  function Labels(cs: seq<Container>): (r: seq<string>)
    ensures |r| == |cs| && forall k :: 0 <= k < |cs| ==> r[k] == cs[k].caption
  {
    seq(|cs|, k requires 0 <= k < |cs| => cs[k].caption)
  }

  /** The containers of one file. */
  function FileOf(file: SketchFile): seq<Container>
    requires forall j :: 0 <= j < |file.sketches| ==> HasLabel(file.sketches[j])
  {
    seq(|file.sketches|, j requires 0 <= j < |file.sketches| =>
      Container(file.name, j, file.sketches[j], ContainerLabel(file.name, j, Label(file.sketches[j]))))
  }

  /** The containers of all files, file after file. */
  function Gathered(files: seq<SketchFile>): seq<Container>
    requires Labelled(files)
  {
    if files == [] then [] else Gathered(files[..|files| - 1]) + FileOf(files[|files| - 1])
  }

  //// Downloading

  /** `downloadData` on the labels of the right-hand list: each label's sketch, in list
      order. A label missing from the map makes `container.sketch` throw. */
  method DownloadData(selected: seq<string>, labelMap: map<string, Container>) returns (sketches: seq<Sketch>)
    requires forall i :: 0 <= i < |selected| ==> selected[i] in labelMap
    ensures |sketches| == |selected|
    ensures forall i :: 0 <= i < |selected| ==> sketches[i] == labelMap[selected[i]].sketch
  {
    sketches := [];
    var i := 0;
    while i < |selected|
      invariant 0 <= i <= |selected| && |sketches| == i
      invariant forall k :: 0 <= k < i ==> sketches[k] == labelMap[selected[k]].sketch
    {
      var container := labelMap[selected[i]];
      sketches := sketches + [container.sketch];
      i := i + 1;
    }
  }

  /** When the loaded containers have distinct labels, downloading a list of their labels
      gives, place by place, the sketch of the container carrying that label. */
  lemma DownloadFindsSketches(cs: seq<Container>, selected: seq<string>, picks: seq<nat>)
    requires forall i, j :: 0 <= i < j < |cs| ==> cs[i].caption != cs[j].caption
    requires |picks| == |selected|
    requires forall i :: 0 <= i < |picks| ==> picks[i] < |cs| && cs[picks[i]].caption == selected[i]
    ensures forall i :: 0 <= i < |selected| ==> selected[i] in LabelMap(cs)
    ensures forall i :: 0 <= i < |selected| ==> LabelMap(cs)[selected[i]].sketch == cs[picks[i]].sketch
  {
    forall i | 0 <= i < |selected|
      ensures selected[i] in LabelMap(cs)
      ensures LabelMap(cs)[selected[i]].sketch == cs[picks[i]].sketch
    {
      LabelMapLastWins(cs, picks[i]);
    }
  }
}
