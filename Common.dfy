/** Drive roots for Windows resource access: `getFolders` in src/utils/common.ts
    (the provider in src/provider/markdownEditorProvider.ts has an identical copy). */
module Common {
  import opened Protocol

  /** The root `X:/` of the drive whose letter has character code `code`. */
  function DriveRoot(code: int): Uri
    requires 65 <= code <= 90
  {
    FileUri([code as char, ':', '/'])
  }

  /** `getFolders()`: pushes one root per character code 65..90, in order. */
  method GetFolders() returns (data: seq<Uri>)
    ensures |data| == 26
    ensures forall k :: 0 <= k < 26 ==> data[k] == FileUri([(65 + k) as char, ':', '/'])
  {
    data := [];
    for i := 65 to 91
      invariant |data| == i - 65
      invariant forall k :: 0 <= k < i - 65 ==> data[k] == DriveRoot(65 + k)
    {
      data := data + [DriveRoot(i)];
    }
  }

  /** The roots run from `A:/` to `Z:/` with strictly ascending letters, so
      none repeats. */
  lemma {:induction false} FoldersAscendAndAreDistinct(data: seq<Uri>)
    requires |data| == 26
    requires forall k :: 0 <= k < 26 ==> data[k] == FileUri([(65 + k) as char, ':', '/'])
    ensures data[0] == FileUri("A:/") && data[25] == FileUri("Z:/")
    ensures forall j, k :: 0 <= j < k < 26 ==> |data[j].fsPath| == 3 && data[j].fsPath[0] < data[k].fsPath[0]
    ensures forall j, k :: 0 <= j < k < 26 ==> data[j] != data[k]
  {
    forall j, k | 0 <= j < k < 26
      ensures |data[j].fsPath| == 3 && data[j].fsPath[0] < data[k].fsPath[0]
      ensures data[j] != data[k]
    {
      assert data[j].fsPath[0] == (65 + j) as char;
      assert data[k].fsPath[0] == (65 + k) as char;
    }
  }
}
