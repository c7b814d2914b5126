/** The `conversations` directory: one JSON file per saved exchange, named
    after the second it was saved in. The directory is a map from file name
    to the record the file holds. */
module Recorder {
  import opened Optional
  import opened Text
  import Timestamp

  /** The object `save_conversation` writes. */
  datatype Conversation = Conversation(timestamp: string, prompt: string,
                                       claudeResponse: Option<string>, chatgptResponse: Option<string>)

  const FilePrefix := "conversations/conv_"
  const FileSuffix := ".json"

  /** `s.replace(' ', '_')` */
  function ReplaceSpaces(s: string): (r: string)
    ensures |r| == |s|
    ensures forall i :: 0 <= i < |s| ==> r[i] == if s[i] == ' ' then '_' else s[i]
  {
    if s == [] then [] else [if s[0] == ' ' then '_' else s[0]] + ReplaceSpaces(s[1..])
  }

  /** The path a conversation saved at `timestamp` is written to. */
  function FileName(timestamp: string): (r: string)
    ensures StartsWith(r, FilePrefix) && EndsWith(r, FileSuffix)
    ensures ' ' !in r
    ensures |r| == |FilePrefix| + |timestamp| + |FileSuffix|
  {
    var stem := ReplaceSpaces(timestamp);
    var r := FilePrefix + stem + FileSuffix;
    assert r[..|FilePrefix|] == FilePrefix;
    assert r[|r| - |FileSuffix|..] == FileSuffix;
    assert forall i :: 0 <= i < |r| ==> r[i] != ' ' by {
      forall i | 0 <= i < |r| ensures r[i] != ' ' {
        if i < |FilePrefix| {
          assert r[i] == FilePrefix[i];
        } else if i < |FilePrefix| + |stem| {
          assert r[i] == stem[i - |FilePrefix|];
        } else {
          assert r[i] == FileSuffix[i - |FilePrefix| - |stem|];
        }
      }
    }
    r
  }

  /** Replacing the space of a rendered time gives the time joined by `_`. */
  lemma StemOfFormat(s: Timestamp.Stamp)
    requires Timestamp.Valid(s)
    ensures ReplaceSpaces(Timestamp.Format(s)) == Timestamp.Layout(s, '_')
  {
  }

  /** Two saves go to the same file exactly when the clock gave the same
      reading, and file names sort in the order of the readings. */
  lemma FileNameCompare(s: Timestamp.Stamp, t: Timestamp.Stamp)
    requires Timestamp.Valid(s) && Timestamp.Valid(t)
    ensures FileName(Timestamp.Format(s)) == FileName(Timestamp.Format(t)) <==> s == t
    ensures Precedes(FileName(Timestamp.Format(s)), FileName(Timestamp.Format(t))) <==> Timestamp.Earlier(s, t)
  {
    var a, b := Timestamp.Layout(s, '_'), Timestamp.Layout(t, '_');
    StemOfFormat(s);
    StemOfFormat(t);
    Timestamp.LayoutCompare(s, t, '_');
    PrecedesIrreflexive(FilePrefix);
    PrecedesIrreflexive(FileSuffix);
    CompareConcat(FilePrefix, FilePrefix, a, b);
    CompareConcat(FilePrefix + a, FilePrefix + b, FileSuffix, FileSuffix);
  }

  /** `save_conversation`'s effect on the directory: the file for
      `timestamp` now holds the new record, whatever it held before, and
      every other file is as it was. */
  function Save(dir: map<string, Conversation>, timestamp: string, prompt: string,
                claudeResponse: Option<string>, chatgptResponse: Option<string>): (d: map<string, Conversation>)
    ensures d.Keys == dir.Keys + {FileName(timestamp)}
    ensures d[FileName(timestamp)] == Conversation(timestamp, prompt, claudeResponse, chatgptResponse)
    ensures forall k :: k in dir && k != FileName(timestamp) ==> d[k] == dir[k]
  {
    dir[FileName(timestamp) := Conversation(timestamp, prompt, claudeResponse, chatgptResponse)]
  }

  /** Of two saves with the same clock reading only the later is kept. */
  lemma SameSecondOverwrites(dir: map<string, Conversation>, s: Timestamp.Stamp,
                             p1: string, c1: Option<string>, g1: Option<string>,
                             p2: string, c2: Option<string>, g2: Option<string>)
    requires Timestamp.Valid(s)
    ensures Save(Save(dir, Timestamp.Format(s), p1, c1, g1), Timestamp.Format(s), p2, c2, g2)
         == Save(dir, Timestamp.Format(s), p2, c2, g2)
  {
  }

  /** Saves with different clock readings both stay in the directory. */
  lemma DifferentSecondsKept(dir: map<string, Conversation>, s: Timestamp.Stamp, t: Timestamp.Stamp,
                             p1: string, c1: Option<string>, g1: Option<string>,
                             p2: string, c2: Option<string>, g2: Option<string>)
    requires Timestamp.Valid(s) && Timestamp.Valid(t) && s != t
    ensures var d := Save(Save(dir, Timestamp.Format(s), p1, c1, g1), Timestamp.Format(t), p2, c2, g2);
            FileName(Timestamp.Format(s)) in d &&
            d[FileName(Timestamp.Format(s))] == Conversation(Timestamp.Format(s), p1, c1, g1) &&
            d[FileName(Timestamp.Format(t))] == Conversation(Timestamp.Format(t), p2, c2, g2)
  {
    FileNameCompare(s, t);
  }

  /** Every file of the directory is named after the timestamp it holds. */
  ghost predicate WellNamed(dir: map<string, Conversation>) {
    forall k :: k in dir ==> k == FileName(dir[k].timestamp)
  }

  lemma SaveKeepsWellNamed(dir: map<string, Conversation>, timestamp: string, prompt: string,
                           claudeResponse: Option<string>, chatgptResponse: Option<string>)
    requires WellNamed(dir)
    ensures WellNamed(Save(dir, timestamp, prompt, claudeResponse, chatgptResponse))
  {
  }
}
