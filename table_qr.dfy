/**
 * The table QR code dialog (frontend/src/components/dashboard/TableQRCodeModal.tsx):
 * one code per table numbered 1 to the table count, each encoding a menu link
 * that carries the table number, plus the download file name and the
 * print-all sheet. Drawing, serialising and printing are left out.
 */
module TableQr {
  import opened Wrappers
  import opened MenuTypes
  import Seqs
  import Strings
  import CustomerMenu

  /** `Array.from({ length: tableCount }, (_, i) => i + 1)`; a non-positive count gives no tables. */
  function TableNumbers(count: int): (r: seq<int>)
    ensures |r| == if count <= 0 then 0 else count
    ensures forall i :: 0 <= i < |r| ==> r[i] == i + 1
    decreases if count <= 0 then 0 else count
  {
    if count <= 0 then [] else TableNumbers(count - 1) + [count]
  }

  /** The query value the link carries for a table. */
  function TableParam(n: int): string {
    Strings.IntToDecimal(n)
  }

  /** `${baseUrl}/?table=${tableNumber}`. */
  function TableUrl(baseUrl: string, n: int): (r: string)
    ensures baseUrl + "/?table=" <= r
    ensures Strings.ParseInt(r[|baseUrl| + 8..]) == Some(n)
  {
    Strings.ParseIntRoundTrip(n);
    var r := baseUrl + "/?table=" + TableParam(n);
    assert r[|baseUrl| + 8..] == TableParam(n);
    r
  }

  /** `qr-${tableNumber}`: the element id a code is rendered under. */
  function QrElementId(n: int): (r: string)
    ensures "qr-" <= r
    ensures Strings.ParseInt(r[3..]) == Some(n)
  {
    Strings.ParseIntRoundTrip(n);
    var r := "qr-" + Strings.IntToDecimal(n);
    assert r[3..] == Strings.IntToDecimal(n);
    r
  }

  /** `table-${tableNumber}-qr.png`. */
  function DownloadName(n: int): (r: string)
    ensures "table-" <= r
    ensures |r| >= 13 && r[|r| - 7..] == "-qr.png"
    ensures Strings.ParseInt(r[6..|r| - 7]) == Some(n)
  {
    Strings.ParseIntRoundTrip(n);
    var r := "table-" + Strings.IntToDecimal(n) + "-qr.png";
    assert r[6..|r| - 7] == Strings.IntToDecimal(n);
    r
  }

  /** Scanning table `n`'s code opens the menu at table `n`, whatever the restaurant's default table. */
  lemma ScannedLinkOpensTable(n: int, fallback: int)
    ensures CustomerMenu.TableNumber(Some(TableParam(n)), fallback) == Int(n)
  {
    Strings.ParseIntRoundTrip(n);
  }

  lemma DecimalDistinct(a: int, b: int)
    requires a != b
    ensures Strings.IntToDecimal(a) != Strings.IntToDecimal(b)
  {
    Strings.ParseIntRoundTrip(a);
    Strings.ParseIntRoundTrip(b);
  }

  /** Different tables get different element ids, links and file names, so each lookup by id finds its own code. */
  lemma NamesIdentifyTable(a: int, b: int, baseUrl: string)
    requires a != b
    ensures QrElementId(a) != QrElementId(b)
    ensures TableUrl(baseUrl, a) != TableUrl(baseUrl, b)
    ensures DownloadName(a) != DownloadName(b)
  {
    DecimalDistinct(a, b);
    var da := Strings.IntToDecimal(a);
    var db := Strings.IntToDecimal(b);
    assert QrElementId(a)[3..] == da && QrElementId(b)[3..] == db;
    var prefix := baseUrl + "/?table=";
    assert TableUrl(baseUrl, a)[|prefix|..] == da && TableUrl(baseUrl, b)[|prefix|..] == db;
    var na := DownloadName(a);
    var nb := DownloadName(b);
    assert na[6..|na| - 7] == da && nb[6..|nb| - 7] == db;
  }

  /** The tables whose codes "Print All" puts on the sheet: those whose element is found (`if (!svg) return ''`). */
  function PrintedTables(count: int, rendered: set<string>): (r: seq<int>)
    ensures forall n :: n in r <==> n in TableNumbers(count) && QrElementId(n) in rendered
  {
    Seqs.Filter(TableNumbers(count), (n: int) => QrElementId(n) in rendered)
  }

  /** The ids the dialog's grid renders. */
  function GridIds(count: int): set<string> {
    set n | n in TableNumbers(count) :: QrElementId(n)
  }

  /** With the grid on screen, the sheet has every table from 1 to the count, in order. */
  lemma PrintAllCoversEveryTable(count: int)
    ensures PrintedTables(count, GridIds(count)) == TableNumbers(count)
  {
    var tables := TableNumbers(count);
    forall n | n in tables ensures QrElementId(n) in GridIds(count) {
    }
    Seqs.FilterAll(tables, (n: int) => QrElementId(n) in GridIds(count));
  }
}
