/** `struct DownloadingProcess`: one row of the download-progress list. */
module DownloadingProcesses {

  /** The five stored properties. Byte counts are `Double` in the app and reals here. */
  datatype DownloadingProcess = DownloadingProcess(
    id: string,
    fileName: string,
    progress: real,
    expectedByte: real,
    finishedByte: real)
  {
    /** `mutating func updateProgress(_:)`: the progress becomes `p`, and every other
        property keeps its value. */
    function UpdateProgress(p: real): (r: DownloadingProcess)
      ensures r.progress == p
      ensures r.id == id && r.fileName == fileName
      ensures r.expectedByte == expectedByte && r.finishedByte == finishedByte
    {
      this.(progress := p)
    }
  }

  /** Updating twice keeps only the second value; updating to the current value is a no-op. */
  lemma UpdateProgressOverwrites(d: DownloadingProcess, p: real, q: real)
    ensures d.UpdateProgress(p).UpdateProgress(q) == d.UpdateProgress(q)
    ensures d.UpdateProgress(d.progress) == d
  {
  }

  /** `dummyData()`; the three generated UUIDs are parameters. */
  function DummyData(id1: string, id2: string, id3: string): (r: seq<DownloadingProcess>)
    ensures |r| == 3
    ensures r[0].id == id1 && r[1].id == id2 && r[2].id == id3
    ensures r[0].fileName == "Lynn Lynn" && r[1].fileName == "Song 2" && r[2].fileName == "fasdfa"
    ensures forall i :: 0 <= i < |r| ==> 0.0 <= r[i].progress <= 1.0
    ensures forall i :: 0 <= i < |r| ==> 0.0 <= r[i].finishedByte <= r[i].expectedByte
  {
    [ DownloadingProcess(id1, "Lynn Lynn", 0.1, 1000000.0, 10000.0),
      DownloadingProcess(id2, "Song 2", 0.20, 1000000.0, 10000.0),
      DownloadingProcess(id3, "fasdfa", 0.8, 1000000.0, 10000.0) ]
  }
}
