/** The multipart `FormData` body the product forms send: an ordered list of key/value
    entries, where a value is text or an uploaded file, and the indexed keys such as
    `colors[3]` and `attributes[0].key` that the forms build with template strings. */
module FormData {
  import opened Common

  /** A file picked in an `<input type="file">`; the model only needs its identity. */
  datatype File = File(name: string, size: nat)

  /** `FormData.append` keeps a `File` as a file and turns every other value into text. */
  datatype FormValue = Text(text: string) | Upload(file: File)

  datatype Entry = Entry(key: string, value: FormValue)

  /** An option of a `<Select>`: `{ value, label }` (`label` is a Dafny keyword, hence `caption`). */
  datatype SelectOption = SelectOption(value: string, caption: string)

  function DigitChar(d: nat): (c: char)
    requires d < 10
    ensures '0' <= c <= '9'
    ensures c as int - '0' as int == d
  {
    ('0' as int + d) as char
  }

  /** The number a string of decimal digits denotes, most significant digit first: the
      reference reading of `Decimal`. */
  function DigitsValue(s: string): int
    decreases |s|
  {
    if s == [] then 0
    else DigitsValue(s[..|s| - 1]) * 10 + (s[|s| - 1] as int - '0' as int)
  }

  /** The decimal rendering of a position, as `${index}` produces it. */
  function Decimal(n: nat): (s: string)
    ensures |s| >= 1
    ensures forall i :: 0 <= i < |s| ==> '0' <= s[i] <= '9'
    ensures (n < 10) <==> (|s| == 1)
  {
    if n < 10 then [DigitChar(n)] else Decimal(n / 10) + [DigitChar(n % 10)]
  }

  /** `Decimal(n)` denotes `n` and, unless `n` is 0, has no leading zero. */
  lemma {:induction false} DecimalValue(n: nat)
    ensures DigitsValue(Decimal(n)) == n
    ensures n > 0 ==> Decimal(n)[0] != '0'
  {
    if n >= 10 {
      var front := Decimal(n / 10);
      var s := Decimal(n);
      assert s == front + [DigitChar(n % 10)];
      assert s[..|s| - 1] == front;
      DecimalValue(n / 10);
      assert s[0] == front[0];
    }
  }

  lemma DigitCharInjective(a: nat, b: nat)
    requires a < 10 && b < 10 && DigitChar(a) == DigitChar(b)
    ensures a == b
  {
  }

  /** Different positions are rendered differently. */
  lemma {:induction false} DecimalInjective(a: nat, b: nat)
    requires Decimal(a) == Decimal(b)
    ensures a == b
  {
    if a < 10 {
      DigitCharInjective(a, b);
    } else {
      var sa, sb := Decimal(a), Decimal(b);
      assert sa == Decimal(a / 10) + [DigitChar(a % 10)];
      assert sb == Decimal(b / 10) + [DigitChar(b % 10)];
      assert sa[..|sa| - 1] == Decimal(a / 10) && sb[..|sb| - 1] == Decimal(b / 10);
      DecimalInjective(a / 10, b / 10);
      DigitCharInjective(a % 10, b % 10);
    }
  }

  /** `${prefix}[${index}]${suffix}`. */
  function IndexedKey(prefix: string, index: nat, suffix: string): (k: string)
    ensures |k| > |prefix| + |suffix| + 2
    ensures k[..|prefix|] == prefix && k[|prefix|] == '['
  {
    prefix + "[" + Decimal(index) + "]" + suffix
  }

  /** An indexed key names exactly one position: two positions never share a key. */
  lemma IndexedKeyInjective(prefix: string, i: nat, j: nat, suffix: string)
    requires IndexedKey(prefix, i, suffix) == IndexedKey(prefix, j, suffix)
    ensures i == j
  {
    var k := IndexedKey(prefix, i, suffix);
    var x, y := Decimal(i), Decimal(j);
    var p := |prefix| + 1;
    assert k == prefix + "[" + x + "]" + suffix;
    assert k == prefix + "[" + y + "]" + suffix;
    if |x| != |y| {
      assert false;
    } else {
      assert x == k[p..p + |x|] == y;
      DecimalInjective(i, j);
    }
  }

  function ColorKey(index: nat): string
  {
    IndexedKey("colors", index, "")
  }

  /** `colors.forEach((color, index) => formData.append(`colors[${index}]`, color))`:
      one entry per color, appended in list order. */
  function ColorEntries(colors: seq<string>): (r: seq<Entry>)
    ensures |r| == |colors|
    decreases |colors|
  {
    if colors == [] then []
    else
      var n := |colors| - 1;
      ColorEntries(colors[..n]) + [Entry(ColorKey(n), Text(colors[n]))]
  }

  /** Color `i` is entry `i`, under the key `colors[i]`. */
  lemma {:induction false} ColorEntryAt(colors: seq<string>, i: nat)
    requires i < |colors|
    ensures ColorEntries(colors)[i] == Entry(ColorKey(i), Text(colors[i]))
    decreases |colors|
  {
    var n := |colors| - 1;
    if i < n {
      ColorEntryAt(colors[..n], i);
    }
  }

  /** Every color is entry `i`, under the key `colors[i]`, and there is no other entry. */
  lemma ColorEntriesAt(colors: seq<string>)
    ensures |ColorEntries(colors)| == |colors|
    ensures forall i :: 0 <= i < |colors| ==> ColorEntries(colors)[i] == Entry(ColorKey(i), Text(colors[i]))
  {
    forall i | 0 <= i < |colors| ensures ColorEntries(colors)[i] == Entry(ColorKey(i), Text(colors[i])) {
      ColorEntryAt(colors, i);
    }
  }

  /** The `colors.forEach(...)` loop: appends one entry per color to `entries`. */
  method AppendColorEntries(entries: seq<Entry>, colors: seq<string>) returns (r: seq<Entry>)
    ensures r == entries + ColorEntries(colors)
  {
    r := entries;
    var i := 0;
    while i < |colors|
      invariant 0 <= i <= |colors|
      invariant r == entries + ColorEntries(colors[..i])
    {
      r := r + [Entry(ColorKey(i), Text(colors[i]))];
      assert colors[..i + 1][..i] == colors[..i];
      i := i + 1;
    }
    assert colors[..i] == colors;
  }

  /** How `String` renders a `File` object. */
  const FileObjectText: string := "[object File]"

  /** `String(files)` for an array of `File` objects: each renders as `[object File]`,
      joined with commas; the empty array renders as the empty string. */
  function FilesText(files: seq<File>): (r: string)
    ensures (files == []) <==> (r == "")
    ensures files != [] ==> |r| == 14 * |files| - 1
    decreases |files|
  {
    if files == [] then ""
    else if |files| == 1 then FileObjectText
    else FilesText(files[..|files| - 1]) + "," + FileObjectText
  }

  /** File `k` renders as the 13 characters from `14k`, and a comma follows every file but
      the last. */
  lemma {:induction false} FilesTextBlock(files: seq<File>, k: nat)
    requires k < |files|
    ensures 14 * k + 13 <= |FilesText(files)|
    ensures FilesText(files)[14 * k .. 14 * k + 13] == FileObjectText
    ensures k < |files| - 1 ==> FilesText(files)[14 * k + 13] == ','
    decreases |files|
  {
    var n := |files|;
    var r := FilesText(files);
    if n > 1 {
      var prev := FilesText(files[..n - 1]);
      assert r == prev + "," + FileObjectText;
      assert |prev| == 14 * n - 15;
      if k < n - 1 {
        FilesTextBlock(files[..n - 1], k);
        assert r[14 * k .. 14 * k + 13] == prev[14 * k .. 14 * k + 13];
        if k < n - 2 {
          assert r[14 * k + 13] == prev[14 * k + 13];
        } else {
          assert r[14 * k + 13] == r[|prev|];
        }
      } else {
        assert r[14 * k .. 14 * k + 13] == r[|prev| + 1..];
      }
    }
  }

  /** `String(files)` is `[object File]` once per file, joined by commas: every file's
      block and every separator, at fixed offsets. */
  lemma FilesTextLayout(files: seq<File>)
    ensures files != [] ==> |FilesText(files)| == 14 * |files| - 1
    ensures forall k :: 0 <= k < |files| ==> FilesText(files)[14 * k .. 14 * k + 13] == FileObjectText
    ensures forall k :: 0 <= k < |files| - 1 ==> FilesText(files)[14 * k + 13] == ','
  {
    forall k | 0 <= k < |files|
      ensures FilesText(files)[14 * k .. 14 * k + 13] == FileObjectText
      ensures k < |files| - 1 ==> FilesText(files)[14 * k + 13] == ','
    {
      FilesTextBlock(files, k);
    }
  }
}
