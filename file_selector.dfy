/** The interactive PDF browser (src/cli/components/FileSelector.ts): the
    list of items shown for a directory, the text of the status box, and how
    choosing an item or pressing `h` moves the current directory. A directory
    read is a function from path to listing; the process's working directory
    and the home directory are parameters. */
module FileSelector {
  import opened Wrappers
  import opened JsStrings
  import opened PosixPath
  import opened PdfFile

  /** What `statSync` says about an entry: a directory, something else, or a throw. */
  datatype EntryKind = Directory | NonDirectory | StatFailed

  /** One name returned by `readdirSync`, with what its `stat` gives. */
  datatype DirEntry = DirEntry(name: string, kind: EntryKind)

  /** What `readdirSync(dir)` gives: the entries, or the message of the error it throws. */
  datatype Listing = ReadFailed(message: string) | Listed(entries: seq<DirEntry>)

  const ParentItem := "[DIR] ../"
  const DirTag := "[DIR]"
  const PdfTag := "[PDF]"

  /** `[DIR] name/` */
  function DirItem(name: string): string
  {
    "[DIR] " + name + "/"
  }

  /** `[PDF] name` */
  function PdfItem(name: string): string
  {
    "[PDF] " + name
  }

  /** `toLowerCase()` on ASCII letters. */
  function LowerAscii(s: string): (r: string)
    ensures |r| == |s|
    ensures forall i :: 0 <= i < |s| ==> r[i] == (if 'A' <= s[i] <= 'Z' then (s[i] as int + 32) as char else s[i])
  {
    seq(|s|, i requires 0 <= i < |s| => if 'A' <= s[i] <= 'Z' then (s[i] as int + 32) as char else s[i])
  }

  /** Folding leaves no capital letter, changes nothing but capitals, turns
      each capital into the same letter in lower case, and is idempotent. */
  lemma LowerAsciiFolds(s: string)
    ensures var r := LowerAscii(s);
            (forall i :: 0 <= i < |r| ==> !('A' <= r[i] <= 'Z')) &&
            (forall i :: 0 <= i < |s| && !('A' <= s[i] <= 'Z') ==> r[i] == s[i]) &&
            (forall i :: 0 <= i < |s| && 'A' <= s[i] <= 'Z' ==>
               'a' <= r[i] <= 'z' && r[i] as int - 'a' as int == s[i] as int - 'A' as int) &&
            LowerAscii(r) == r
  {
  }

  /** The item an entry is shown as, if any: directories first, then files
      whose name ends in `.pdf` in any case; the rest, and entries whose
      `stat` throws, are dropped. */
  function Classify(e: DirEntry): Option<string>
  {
    match e.kind
    case Directory => Some(DirItem(e.name))
    case NonDirectory => if EndsWith(LowerAscii(e.name), ".pdf") then Some(PdfItem(e.name)) else None
    case StatFailed => None
  }

  /** The items of a listing, in listing order (`map` then `filter`). */
  function Classified(entries: seq<DirEntry>): (r: seq<string>)
    ensures forall x :: x in r <==> exists i :: 0 <= i < |entries| && Classify(entries[i]) == Some(x)
  {
    if entries == [] then []
    else
      var rest := Classified(entries[1..]);
      assert forall i :: 1 <= i < |entries| ==> entries[i] == entries[1..][i - 1];
      match Classify(entries[0])
      case Some(item) => [item] + rest
      case None => rest
  }

  /** Every classified item is tagged `[DIR]` or `[PDF]`. */
  lemma ClassifiedTagged(entries: seq<DirEntry>)
    ensures forall x :: x in Classified(entries) ==> StartsWith(x, DirTag) || StartsWith(x, PdfTag)
  {
    forall x | x in Classified(entries) ensures StartsWith(x, DirTag) || StartsWith(x, PdfTag) {
      var i :| 0 <= i < |entries| && Classify(entries[i]) == Some(x);
      var name := entries[i].name;
      if entries[i].kind.Directory? {
        assert x == "[DIR] " + (name + "/");
      } else {
        assert x == "[PDF] " + name;
      }
    }
  }

  /** The directory test wins over the name; a file is listed exactly when
      its lower-cased name ends in `.pdf`. */
  lemma ClassifyCases(name: string, kind: EntryKind)
    ensures kind.Directory? ==> Classify(DirEntry(name, kind)) == Some(DirItem(name))
    ensures kind.NonDirectory? ==>
              (Classify(DirEntry(name, kind)).Some? <==> EndsWith(LowerAscii(name), ".pdf"))
    ensures kind.NonDirectory? && Classify(DirEntry(name, kind)).Some? ==>
              Classify(DirEntry(name, kind)).value == PdfItem(name)
    ensures kind.StatFailed? ==> Classify(DirEntry(name, kind)).None?
  {
  }

  /** The items starting with `tag`, in order. */
  function WithPrefix(items: seq<string>, tag: string): (r: seq<string>)
    ensures forall x :: x in r <==> x in items && StartsWith(x, tag)
    ensures |r| <= |items|
  {
    if items == [] then []
    else
      var rest := WithPrefix(items[1..], tag);
      assert forall x :: x in items <==> x == items[0] || x in items[1..];
      (if StartsWith(items[0], tag) then [items[0]] else []) + rest
  }

  lemma {:induction false} WithPrefixAppend(a: seq<string>, b: seq<string>, tag: string)
    ensures WithPrefix(a + b, tag) == WithPrefix(a, tag) + WithPrefix(b, tag)
  {
    if a != [] {
      assert (a + b)[1..] == a[1..] + b;
      WithPrefixAppend(a[1..], b, tag);
    } else {
      assert a + b == b;
    }
  }

  /** Filtering a list whose every item has the tag keeps all of it. */
  lemma {:induction false} WithPrefixAll(items: seq<string>, tag: string)
    requires forall x :: x in items ==> StartsWith(x, tag)
    ensures WithPrefix(items, tag) == items
  {
    if items != [] {
      WithPrefixAll(items[1..], tag);
    }
  }

  /** Filtering a list none of whose items has the tag keeps nothing. */
  lemma WithPrefixNone(items: seq<string>, tag: string)
    requires forall x :: x in items ==> !StartsWith(x, tag)
    ensures WithPrefix(items, tag) == []
  {
    if WithPrefix(items, tag) != [] {
      assert WithPrefix(items, tag)[0] in WithPrefix(items, tag);
    }
  }

  /** JavaScript's default string order: code unit by code unit, a prefix first. */
  predicate Below(a: string, b: string)
  {
    if a == [] then true
    else if b == [] then false
    else if a[0] != b[0] then a[0] < b[0]
    else Below(a[1..], b[1..])
  }

  /** Any two strings are ordered one way or the other. */
  lemma {:induction false} BelowTotal(a: string, b: string)
    ensures Below(a, b) || Below(b, a)
  {
    if a != [] && b != [] && a[0] == b[0] {
      BelowTotal(a[1..], b[1..]);
    }
  }

  /** The order is transitive. */
  lemma {:induction false} BelowTransitive(a: string, b: string, c: string)
    requires Below(a, b) && Below(b, c)
    ensures Below(a, c)
  {
    if a != [] && b != [] && c != [] && a[0] == b[0] && b[0] == c[0] {
      BelowTransitive(a[1..], b[1..], c[1..]);
    }
  }

  /** Each item is at most its successor. */
  predicate Sorted(xs: seq<string>)
  {
    forall i :: 0 <= i < |xs| - 1 ==> Below(xs[i], xs[i + 1])
  }

  /** In a sorted list, every item is at most every later one. */
  lemma {:induction false} SortedPairwise(xs: seq<string>, i: nat, j: nat)
    requires Sorted(xs) && i <= j < |xs|
    ensures Below(xs[i], xs[j])
    decreases j - i
  {
    if i == j {
      BelowTotal(xs[i], xs[j]);
    } else {
      SortedPairwise(xs, i + 1, j);
      BelowTransitive(xs[i], xs[i + 1], xs[j]);
    }
  }

  /** Puts `x` after every item at most it. */
  function InsertString(x: string, sorted: seq<string>): (r: seq<string>)
    ensures multiset(r) == multiset(sorted) + multiset{x}
    ensures |r| == |sorted| + 1
  {
    if sorted == [] || Below(sorted[|sorted| - 1], x) then sorted + [x]
    else
      assert sorted == sorted[..|sorted| - 1] + [sorted[|sorted| - 1]];
      InsertString(x, sorted[..|sorted| - 1]) + [sorted[|sorted| - 1]]
  }

  /** Inserting into a sorted list keeps it sorted; the new last item is `x`
      or the old last item. */
  lemma {:induction false} InsertStringSorted(x: string, sorted: seq<string>)
    requires Sorted(sorted)
    ensures Sorted(InsertString(x, sorted))
    ensures var r := InsertString(x, sorted);
            r[|r| - 1] == x || (sorted != [] && r[|r| - 1] == sorted[|sorted| - 1])
  {
    if sorted != [] && !Below(sorted[|sorted| - 1], x) {
      var init := sorted[..|sorted| - 1];
      var last := sorted[|sorted| - 1];
      var front := InsertString(x, init);
      assert InsertString(x, sorted) == front + [last];
      assert Sorted(init) by {
        forall i | 0 <= i < |init| - 1 ensures Below(init[i], init[i + 1]) {
          assert init[i] == sorted[i] && init[i + 1] == sorted[i + 1];
        }
      }
      assert Sorted(front) && (front[|front| - 1] == x || (init != [] && front[|front| - 1] == init[|init| - 1])) by {
        InsertStringSorted(x, init);
      }
      assert Below(front[|front| - 1], last) by {
        BelowTotal(last, x);
        if front[|front| - 1] != x {
          assert init[|init| - 1] == sorted[|sorted| - 2];
        }
      }
      SortedSnoc(front, last);
    }
  }

  /** Appending an item at least the last keeps a list sorted. */
  lemma SortedSnoc(xs: seq<string>, y: string)
    requires Sorted(xs) && (xs == [] || Below(xs[|xs| - 1], y))
    ensures Sorted(xs + [y])
  {
    var r := xs + [y];
    forall i | 0 <= i < |r| - 1 ensures Below(r[i], r[i + 1]) {
      if i < |xs| - 1 {
        assert r[i] == xs[i] && r[i + 1] == xs[i + 1];
      }
    }
  }

  /** `Array.prototype.sort()` with the default comparison: the items
      inserted one at a time. */
  function SortStrings(xs: seq<string>): seq<string>
  {
    if xs == [] then []
    else InsertString(xs[|xs| - 1], SortStrings(xs[..|xs| - 1]))
  }

  /** The default `sort()` gives a sorted rearrangement of the items. */
  lemma {:induction false} SortStringsSpec(xs: seq<string>)
    ensures Sorted(SortStrings(xs))
    ensures multiset(SortStrings(xs)) == multiset(xs)
    ensures |SortStrings(xs)| == |xs|
  {
    if xs != [] {
      var init := xs[..|xs| - 1];
      assert xs == init + [xs[|xs| - 1]];
      SortStringsSpec(init);
      InsertStringSorted(xs[|xs| - 1], SortStrings(init));
    }
  }

  /** The items of a sorted copy are those of the original. */
  lemma SortedSameItems(xs: seq<string>)
    ensures forall x :: x in SortStrings(xs) <==> x in xs
  {
    SortStringsSpec(xs);
    forall x ensures x in SortStrings(xs) <==> x in xs {
      assert x in SortStrings(xs) <==> x in multiset(SortStrings(xs));
      assert x in xs <==> x in multiset(xs);
    }
  }

  /** The list shown for `dir`: the parent item unless `dir` is the root,
      then the PDF items sorted, then the directory items sorted. */
  function ListItems(dir: string, files: seq<string>): seq<string>
  {
    (if dir != "/" then [ParentItem] else [])
      + SortStrings(WithPrefix(files, PdfTag)) + SortStrings(WithPrefix(files, DirTag))
  }

  /** The list built in steps, the parent item first when there is one. */
  lemma ListItemsParts(dir: string, files: seq<string>, sortedFiles: seq<string>,
                       pdfFiles: seq<string>, dirFiles: seq<string>)
    requires pdfFiles == SortStrings(WithPrefix(files, PdfTag))
    requires dirFiles == SortStrings(WithPrefix(files, DirTag))
    requires dir != "/" ==> sortedFiles == [] + [ParentItem] + pdfFiles + dirFiles
    requires dir == "/" ==> sortedFiles == [] + pdfFiles + dirFiles
    ensures sortedFiles == ListItems(dir, files)
  {
    assert [] + [ParentItem] == [ParentItem];
    assert [] + pdfFiles == pdfFiles;
  }

  /** The tags of the two kinds of items differ. */
  lemma TagsDiffer(x: string)
    ensures !(StartsWith(x, PdfTag) && StartsWith(x, DirTag))
    ensures !StartsWith(ParentItem, PdfTag)
  {
    assert ParentItem[1] != PdfTag[1];
  }

  /** Nothing is added but the parent item: the list holds the parent item
      (when not at the root) and exactly the classified items. */
  lemma ListItemsAreClassified(dir: string, entries: seq<DirEntry>)
    ensures var items := ListItems(dir, Classified(entries));
            forall x :: x in items <==> (x == ParentItem && dir != "/") || x in Classified(entries)
  {
    var files := Classified(entries);
    ClassifiedTagged(entries);
    SortedSameItems(WithPrefix(files, PdfTag));
    SortedSameItems(WithPrefix(files, DirTag));
  }

  /** The names `readdirSync` returns: never empty, `.` or `..`, and without a separator. */
  predicate PlainNames(entries: seq<DirEntry>)
  {
    forall i :: 0 <= i < |entries| ==> IsPlainName(entries[i].name)
  }

  /** The parent item is listed, first, exactly when the directory is not the root. */
  lemma ParentItemFirst(dir: string, entries: seq<DirEntry>)
    requires PlainNames(entries)
    ensures var items := ListItems(dir, Classified(entries));
            dir != "/" <==> |items| > 0 && items[0] == ParentItem
  {
    var files := Classified(entries);
    var items := ListItems(dir, files);
    if dir == "/" && |items| > 0 && items[0] == ParentItem {
      ListItemsAreClassified(dir, entries);
      assert ParentItem in items;
      var i :| 0 <= i < |entries| && Classify(entries[i]) == Some(ParentItem);
      if entries[i].kind.Directory? {
        DirItemNotParent(entries[i].name);
      }
    }
  }

  /** The PDF count reported is the number of `[PDF]` items in the list. */
  lemma PdfCountMatchesItems(dir: string, entries: seq<DirEntry>)
    ensures var files := Classified(entries);
            |WithPrefix(ListItems(dir, files), PdfTag)| == |WithPrefix(files, PdfTag)|
  {
    var files := Classified(entries);
    var pdfs := SortStrings(WithPrefix(files, PdfTag));
    var dirs := SortStrings(WithPrefix(files, DirTag));
    var parent: seq<string> := if dir != "/" then [ParentItem] else [];
    WithPrefixAppend(parent + pdfs, dirs, PdfTag);
    WithPrefixAppend(parent, pdfs, PdfTag);
    TagsDiffer(ParentItem);
    WithPrefixNone(parent, PdfTag);
    SortedSameItems(WithPrefix(files, PdfTag));
    SortedSameItems(WithPrefix(files, DirTag));
    WithPrefixAll(pdfs, PdfTag);
    SortStringsSpec(WithPrefix(files, PdfTag));
    forall x | x in dirs ensures !StartsWith(x, PdfTag) {
      TagsDiffer(x);
    }
    WithPrefixNone(dirs, PdfTag);
  }

  /** The directory as shown: at most 40 characters, keeping the end. */
  function ShortDir(dir: string): (r: string)
    ensures |r| <= 40
    ensures |dir| <= 40 ==> r == dir
    ensures |dir| > 40 ==> |r| == 40 && StartsWith(r, "...") && EndsWith(dir, r[3..])
  {
    if |dir| > 40 then "..." + dir[|dir| - 37..] else dir
  }

  const HelpLine := "Use ↑/↓ arrows, " + "Enter to select PDF, " + "'h' for home, 'q' to quit"
  const ErrorHelp := "Error: Cannot access directory\n" + "Press 'h' for home, 'q' to quit"

  function ErrorItem(message: string): string
  {
    "Error reading directory: " + ErrorText(message)
  }

  /** The list shown after reading `dir`. */
  function ItemsFor(dir: string, listing: Listing): seq<string>
  {
    match listing
    case ReadFailed(message) => [ErrorItem(message)]
    case Listed(entries) => ListItems(dir, Classified(entries))
  }

  /** `Current Directory: ${shortDir}` */
  function DirLine(dir: string): string
  {
    "Current Directory: " + ShortDir(dir)
  }

  /** `Found ${pdfCount} PDF file(s)` */
  function CountLine(pdfCount: nat): string
  {
    "Found " + NatToString(pdfCount) + " PDF file(s)"
  }

  /** The status box after reading `dir`. */
  function ContentFor(title: string, dir: string, listing: Listing): string
  {
    match listing
    case ReadFailed(_) => title + "\n" + ErrorHelp
    case Listed(entries) => StatusText(title, dir, |WithPrefix(Classified(entries), PdfTag)|)
  }

  /** The status box of a listed directory holding `pdfCount` PDF files. */
  function StatusText(title: string, dir: string, pdfCount: nat): string
  {
    title + "\n" + DirLine(dir) + "\n" + CountLine(pdfCount) + "\n" + HelpLine
  }

  lemma ShortDirOneLine(dir: string)
    requires '\n' !in dir
    ensures '\n' !in ShortDir(dir)
  {
    if |dir| > 40 {
      var tail := dir[|dir| - 37..];
      assert ShortDir(dir) == "..." + tail;
      assert forall k :: 0 <= k < |tail| ==> tail[k] == dir[|dir| - 37 + k];
    }
  }

  lemma NatToStringOneLine(n: nat)
    ensures '\n' !in NatToString(n)
  {
    var digits := NatToString(n);
    assert forall k :: 0 <= k < |digits| ==> IsDigit(digits[k], 10);
  }

  lemma HelpLineOneLine()
    ensures '\n' !in HelpLine
  {
  }

  /** Four lines joined by line breaks split back into those lines. */
  lemma SplitFourLines(p: string, q: string, r: string, s: string)
    requires '\n' !in p && '\n' !in q && '\n' !in r && '\n' !in s
    ensures Split(p + "\n" + q + "\n" + r + "\n" + s, '\n') == [p, q, r, s]
  {
    assert p + "\n" + q + "\n" + r + "\n" + s == p + ['\n'] + (q + ['\n'] + (r + ['\n'] + s));
    SplitConcat(p, q + ['\n'] + (r + ['\n'] + s), '\n');
    SplitConcat(q, r + ['\n'] + s, '\n');
    SplitConcat(r, s, '\n');
    SplitWithout(p, '\n');
    SplitWithout(q, '\n');
    SplitWithout(r, '\n');
    SplitWithout(s, '\n');
  }

  /** Line by line, the status box is the title, the directory as shown, the
      PDF count and the key help. */
  lemma ContentLines(title: string, dir: string, entries: seq<DirEntry>)
    requires '\n' !in title && '\n' !in dir
    ensures var count := |WithPrefix(Classified(entries), PdfTag)|;
            Split(ContentFor(title, dir, Listed(entries)), '\n') == [title, DirLine(dir), CountLine(count), HelpLine]
  {
    var count := |WithPrefix(Classified(entries), PdfTag)|;
    assert '\n' !in DirLine(dir) by {
      ShortDirOneLine(dir);
    }
    assert '\n' !in CountLine(count) by {
      NatToStringOneLine(count);
    }
    HelpLineOneLine();
    SplitFourLines(title, DirLine(dir), CountLine(count), HelpLine);
  }

  /** The directory name in a `[DIR] ` item: the rest after the tag, less one trailing `/`. */
  function DirName(itemText: string): string
    requires |itemText| >= 6
  {
    var name := itemText[6..];
    if EndsWith(name, "/") then name[..|name| - 1] else name
  }

  /** A directory item gives back the directory's name. */
  lemma DirNameOfItem(name: string)
    ensures DirName(DirItem(name)) == name
  {
    assert DirItem(name)[6..] == name + "/";
  }

  /** No directory entry is listed as the parent item. */
  lemma DirItemNotParent(name: string)
    requires IsPlainName(name)
    ensures DirItem(name) != ParentItem
  {
    DirNameOfItem(name);
    assert ParentItem[6..] == "../";
    assert DirName(ParentItem) == "..";
  }

  /** Whether choosing the item moves to another directory. */
  predicate Navigates(itemText: string)
  {
    itemText == ParentItem || StartsWith(itemText, "[DIR] ")
  }

  /** The current directory after choosing an item: the parent for the
      parent item, the named child for a directory item, unchanged otherwise. */
  function NextDir(dir: string, itemText: string, cwd: string): string
  {
    if itemText == ParentItem then Resolve(cwd, dir, "..")
    else if StartsWith(itemText, "[DIR] ") then JoinPath(dir, DirName(itemText))
    else dir
  }

  /** The path chosen by a PDF item, if the item is one. */
  function Selected(dir: string, itemText: string): Option<string>
  {
    if !Navigates(itemText) && StartsWith(itemText, "[PDF] ") then Some(JoinPath(dir, itemText[6..])) else None
  }

  /** Entering a listed directory and then choosing the parent item comes
      back to where the browser was. */
  lemma EnterThenLeave(cwd: string, names: seq<string>, name: string)
    requires AllPlain(names) && IsPlainName(name)
    ensures NextDir(AbsPath(names), DirItem(name), cwd) == AbsPath(names + [name])
    ensures NextDir(NextDir(AbsPath(names), DirItem(name), cwd), ParentItem, cwd) == AbsPath(names)
  {
    DirItemNotParent(name);
    DirNameOfItem(name);
    assert StartsWith(DirItem(name), "[DIR] ");
    JoinChild(names, name);
    ResolveParentOfChild(cwd, names, name);
  }

  /** The parent item at the root stays at the root. */
  lemma ParentOfRootIsRoot(cwd: string)
    ensures NextDir("/", ParentItem, cwd) == "/"
  {
    ResolveParentOfRoot(cwd);
  }

  /** Choosing a listed PDF selects the file in the current directory, whose
      base name (the name sent with the form) is the file's name, and leaves
      the directory as it is. */
  lemma SelectPdf(cwd: string, names: seq<string>, name: string)
    requires AllPlain(names) && IsPlainName(name)
    ensures Selected(AbsPath(names), PdfItem(name)) == Some(AbsPath(names + [name]))
    ensures Basename(AbsPath(names + [name])) == name
    ensures NextDir(AbsPath(names), PdfItem(name), cwd) == AbsPath(names)
  {
    var item := PdfItem(name);
    assert item[1] == 'P';
    assert ParentItem[1] == 'D';
    assert !StartsWith(item, "[DIR] ") by {
      assert "[DIR] "[1] == 'D';
    }
    assert item[6..] == name;
    JoinChild(names, name);
    BasenameOfChild(names, name);
  }

  /** Any other text neither moves nor selects. */
  lemma OtherItemDoesNothing(dir: string, itemText: string, cwd: string)
    requires !StartsWith(itemText, "[DIR] ") && !StartsWith(itemText, "[PDF] ")
    ensures NextDir(dir, itemText, cwd) == dir && Selected(dir, itemText).None?
  {
    if itemText == ParentItem {
      assert StartsWith(itemText, "[DIR] ");
    }
  }

  /** The browser: its title, current directory, list items and status box. */
  class FileSelector {
    var title: string
    var currentDir: string
    var items: seq<string>
    var content: string

    /** `new FileSelector(title)` started in the working directory `cwd`. */
    constructor(title: string, cwd: string)
      ensures this.title == title && currentDir == cwd
      ensures items == [] && content == title + "\nLoading directory..."
    {
      this.title := title;
      currentDir := cwd;
      items := [];
      content := title + "\nLoading directory...";
    }

    /** `updateFileList()`, reading directories through `readDir`. */
    method UpdateFileList(readDir: string -> Listing)
      modifies this
      ensures title == old(title) && currentDir == old(currentDir)
      ensures items == ItemsFor(currentDir, readDir(currentDir))
      ensures content == ContentFor(title, currentDir, readDir(currentDir))
    {
      var dir := currentDir;
      var listing := readDir(dir);
      match listing {
        case ReadFailed(message) =>
          items := [ErrorItem(message)];
          content := title + "\n" + ErrorHelp;
        case Listed(entries) =>
          ShowEntries(dir, Classified(entries));
      }
    }

    /** The `Listed` branch of `updateFileList()`, given the classified
        items: sort them into the list and count the PDF files in the
        status box. */
    method ShowEntries(dir: string, files: seq<string>)
      modifies this
      ensures title == old(title) && currentDir == old(currentDir)
      ensures items == ListItems(dir, files)
      ensures content == StatusText(title, dir, |WithPrefix(files, PdfTag)|)
    {
      var pdfFiles := SortStrings(WithPrefix(files, PdfTag));
      var dirFiles := SortStrings(WithPrefix(files, DirTag));
      var sortedFiles: seq<string> := [];
      if dir != "/" {
        sortedFiles := sortedFiles + [ParentItem];
      }
      sortedFiles := sortedFiles + pdfFiles;
      sortedFiles := sortedFiles + dirFiles;
      ListItemsParts(dir, files, sortedFiles, pdfFiles, dirFiles);
      assert |pdfFiles| == |WithPrefix(files, PdfTag)| by {
        SortStringsSpec(WithPrefix(files, PdfTag));
      }
      items := sortedFiles;
      content := title + "\n" + DirLine(dir) + "\n" + CountLine(|pdfFiles|) + "\n" + HelpLine;
    }

    /** `show()`: the first directory read. */
    method Show(readDir: string -> Listing)
      modifies this
      ensures title == old(title) && currentDir == old(currentDir)
      ensures items == ItemsFor(currentDir, readDir(currentDir))
      ensures content == ContentFor(title, currentDir, readDir(currentDir))
    {
      UpdateFileList(readDir);
    }

    /** `handleSelection(item)` for an item with text `itemText`; returns the
        chosen PDF's path, if one was chosen. */
    method HandleSelection(itemText: string, cwd: string, readDir: string -> Listing)
      returns (selected: Option<string>)
      modifies this
      ensures selected == Selected(old(currentDir), itemText)
      ensures title == old(title) && currentDir == NextDir(old(currentDir), itemText, cwd)
      ensures Navigates(itemText) ==>
                items == ItemsFor(currentDir, readDir(currentDir)) &&
                content == ContentFor(title, currentDir, readDir(currentDir))
      ensures !Navigates(itemText) ==> items == old(items) && content == old(content)
    {
      selected := None;
      if itemText == ParentItem {
        currentDir := Resolve(cwd, currentDir, "..");
        UpdateFileList(readDir);
      } else if StartsWith(itemText, "[DIR] ") {
        var dirName := itemText[6..];
        if EndsWith(dirName, "/") {
          dirName := dirName[..|dirName| - 1];
        }
        currentDir := JoinPath(currentDir, dirName);
        UpdateFileList(readDir);
      } else if StartsWith(itemText, "[PDF] ") {
        var fileName := itemText[6..];
        selected := Some(JoinPath(currentDir, fileName));
      }
    }

    /** The `h` key: go to the home directory `home` and list it. */
    method PressHome(home: string, readDir: string -> Listing)
      modifies this
      ensures title == old(title) && currentDir == home
      ensures items == ItemsFor(home, readDir(home))
      ensures content == ContentFor(title, home, readDir(home))
    {
      currentDir := home;
      UpdateFileList(readDir);
    }
  }
}
