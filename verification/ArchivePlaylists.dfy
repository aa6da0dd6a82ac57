/** The methods on playlist files, against the model. */
module ArchivePlaylists {
  import opened Common
  import opened PlaylistModel
  import opened PlaylistRoundTrip

  /** Reads the file line by line; `None` is the exception of a conversion. */
  method GetTotalTsDurationSecFromPlaylist(text: string) returns (total: Option<int>)
    ensures total == match Total(text) { case None => None case Some(sum) => Some(Truncated(sum)) }
  {
    var tsTotalDuration := 0.0;
    var pos := 0;
    assert text[0..] == text;
    while pos < |text|
      invariant 0 <= pos <= |text|
      invariant Total(text) == Plus(Some(tsTotalDuration), Total(text[pos..]))
    {
      var line, next := GetLine(text, pos);
      LineTotal(text, pos, line, next);
      if Contains(line, INF_TAG) {
        var tsDurationStr := DurationText(line);
        var value := Stod(tsDurationStr);
        if value.None? {
          return None;
        }
        tsTotalDuration := tsTotalDuration + value.value;
      }
      pos := next;
    }
    assert Total(text[pos..]) == Some(0.0) by {
      assert text[pos..] == "" && Durations([]) == [];
    }
    return Some(Truncated(tsTotalDuration));
  }

  /** `getline`: the text up to the next newline or the end. */
  method GetLine(text: string, pos: nat) returns (line: string, next: nat)
    requires pos < |text|
    ensures pos < next <= |text| && pos + |line| <= next
    ensures OneLine(line) && text[pos..pos + |line|] == line
    ensures if pos + |line| < |text| then text[pos + |line|] == '\n' && next == pos + |line| + 1 else next == |text|
  {
    var end := pos;
    while end < |text| && text[end] != '\n'
      invariant pos <= end <= |text| && forall j :: pos <= j < end ==> text[j] != '\n'
    {
      end := end + 1;
    }
    line := text[pos..end];
    next := if end < |text| then end + 1 else end;
  }

  /** One line read: what is left to add. */
  lemma LineTotal(text: string, pos: nat, line: string, next: nat)
    requires pos < next <= |text| && pos + |line| <= next && OneLine(line) && text[pos..pos + |line|] == line
    requires if pos + |line| < |text| then text[pos + |line|] == '\n' && next == pos + |line| + 1 else next == |text|
    ensures Total(text[pos..]) == Plus(Duration(line), Total(text[next..]))
  {
    var lines, rest := Lines(text[pos..]), Lines(text[next..]);
    if pos + |line| < |text| {
      assert text[pos..] == line + "\n" + text[next..];
      LinesCons(line, text[next..]);
    } else {
      assert text[pos..] == line && text[next..] == "";
      NewlineMeans(line, 0);
    }
    assert lines == [line] + rest;
    TotalCons(line, rest);
  }

  lemma TotalCons(line: string, rest: seq<string>)
    ensures Added(Durations([line] + rest)) == Plus(Duration(line), Added(Durations(rest)))
  {
    var all := Durations([line] + rest);
    assert all[0] == Duration(line) && all[1..] == Durations(rest);
  }

  /** The part of an archive object that the repair reads and writes. */
  class ArchiveInfo {
    const timeBegin: int
    var timeEnd: int
    var commits: nat

    constructor (timeBegin: int, timeEnd: int)
      ensures this.timeBegin == timeBegin && this.timeEnd == timeEnd && commits == 0
    {
      this.timeBegin, this.timeEnd, commits := timeBegin, timeEnd, 0;
    }
  }

  /** `endSecond` is the local seconds field of the end time; an exception leaves the archive as it was. */
  method CheckForInconsistency(archive: ArchiveInfo, endSecond: int, file: PlaylistFile) returns (raised: bool)
    modifies archive
    ensures raised <==> RepairEnd(endSecond, archive.timeBegin, file).Raised?
    ensures match RepairEnd(endSecond, archive.timeBegin, file)
            case Repaired(end) => archive.timeEnd == end && archive.commits == old(archive.commits) + 1
            case _ => archive.timeEnd == old(archive.timeEnd) && archive.commits == old(archive.commits)
    ensures endSecond != 0 || file.Missing? || file.Unopenable? ==>
      !raised && archive.timeEnd == old(archive.timeEnd) && archive.commits == old(archive.commits)
    ensures endSecond == 0 && file.PathError? && 0 <= archive.timeBegin < TWO_63 ==>
      !raised && archive.timeEnd == archive.timeBegin && archive.commits == old(archive.commits) + 1
  {
    if endSecond != 0 || file.Missing? || file.Unopenable? {
      return false;
    }
    var totalTsDurationSec := 0;
    if file.Readable? {
      var total := GetTotalTsDurationSecFromPlaylist(file.text);
      if total.None? {
        return true;
      }
      totalTsDurationSec := total.value;
      if totalTsDurationSec == -1 {
        return false;
      }
    }
    archive.timeEnd := AsInt64(archive.timeBegin + totalTsDurationSec);
    archive.commits := archive.commits + 1;
    return false;
  }

  /** An archiver's two playlist files. */
  class ArchiveCreator {
    var originalPlaylist: string
    var liveStreamPlaylist: string

    constructor (originalPlaylist: string)
      ensures this.originalPlaylist == originalPlaylist && liveStreamPlaylist == ""
    {
      this.originalPlaylist, liveStreamPlaylist := originalPlaylist, "";
    }

    /** `opens` says whether the file can be opened for appending. */
    method CheckOriginalPlaylistConsistent(opens: bool)
      modifies `originalPlaylist
      ensures originalPlaylist == if opens then Checked(old(originalPlaylist)) else old(originalPlaylist)
    {
      var lastLine := LastLine(originalPlaylist);
      if !Contains(lastLine, CLOSING_TAG) {
        if !opens {
          return;
        }
        originalPlaylist := originalPlaylist + CLOSING_TAG;
      }
    }

    /** The live file is truncated, rewritten and closed; nothing of its former text remains. */
    method TransferOriginalPlaylistToLiveStream(originalOpens: bool, liveOpens: bool)
      modifies `liveStreamPlaylist
      ensures liveStreamPlaylist == if originalOpens && liveOpens then LiveCopy(originalPlaylist) else old(liveStreamPlaylist)
    {
      if !originalOpens {
        return;
      }
      var originalPlaylistText := originalPlaylist;
      if !liveOpens {
        return;
      }
      liveStreamPlaylist := "";
      liveStreamPlaylist := liveStreamPlaylist + originalPlaylistText;
      assert liveStreamPlaylist == originalPlaylist;
      if LastLine(liveStreamPlaylist) != CLOSING_TAG {
        liveStreamPlaylist := liveStreamPlaylist + CLOSING_TAG;
      }
    }
  }
}
