/** The journal (src/pages/Journal.tsx): a list of entries, newest first; an
    editor entered through "Start Writing" or a writing prompt and left through
    Cancel or Save; and a preview of the latest five entries with long entries
    cut to 200 characters. */
module Journal {
  import opened Common
  import opened Text

  /** A saved entry: its id (the save time's millisecond count, as text), its
      date as the locale writes it, and what was written. */
  datatype Entry = Entry(id: string, date: string, content: string)

  const Prompts: seq<string> := [
    "One thing I'm grateful for today is...",
    "Something that made me smile recently was...",
    "A challenge I faced today and how I handled it...",
    "Three things that went well today were...",
    "How I'm feeling right now and why...",
    "Something I learned about myself today...",
    "A small victory I want to celebrate...",
    "What I'm looking forward to tomorrow...",
    "A person who made my day better and how...",
    "Something I did today to take care of myself..."
  ]

  const PreviewCount := 5
  const ExcerptLength := 200
  const Ellipsis := "..."

  /** The header "Start Writing" puts in an empty editor, for `today` written
      out as the locale writes a long date. */
  function DateHeader(today: string): (r: string)
    ensures |r| == |today| + 12
    ensures r[..9] == "Today is " && r[9..9 + |today|] == today && r[9 + |today|..] == ".\n\n"
  {
    "Today is " + today + ".\n\n"
  }

  /** The entries listed under "Your Journal Entries": the first five, newest first. */
  function Preview(entries: seq<Entry>): (r: seq<Entry>)
    ensures |r| == Min(PreviewCount, |entries|)
    ensures r == entries[..|r|]
  {
    if |entries| > PreviewCount then entries[..PreviewCount] else entries
  }

  /** The "And n more entries..." line: present only beyond five entries, and
      with the preview it accounts for every entry exactly once. */
  function MoreCount(entries: seq<Entry>): (r: Option<nat>)
    ensures r.Some? <==> |entries| > PreviewCount
    ensures r.Some? ==> r.value > 0 && |Preview(entries)| + r.value == |entries|
    ensures r.None? ==> Preview(entries) == entries
  {
    if |entries| > PreviewCount then Some(|entries| - PreviewCount) else None
  }

  /** An entry's text on its preview card: unchanged up to 200 characters,
      otherwise its first 200 followed by "...". */
  function Excerpt(content: string): (r: string)
    ensures |content| <= ExcerptLength ==> r == content
    ensures |content| > ExcerptLength ==>
      |r| == ExcerptLength + |Ellipsis| && r[..ExcerptLength] == content[..ExcerptLength] && r[ExcerptLength..] == Ellipsis
  {
    if |content| > ExcerptLength then content[..ExcerptLength] + Ellipsis else content
  }

  /** No preview card is longer than 203 characters, and a card's text always
      begins like its entry. */
  lemma ExcerptBounds(content: string)
    ensures |Excerpt(content)| <= ExcerptLength + |Ellipsis|
    ensures var n := Min(|content|, ExcerptLength); Excerpt(content)[..n] == content[..n]
  {
  }

  class JournalPage {
    var entries: seq<Entry>
    var currentEntry: string
    var selectedPrompt: string
    var isWriting: bool

    /** Outside the editor there is neither text nor a prompt; a selected
        prompt is one of the ten. */
    ghost predicate Valid()
      reads this
    {
      && (!isWriting ==> currentEntry == "" && selectedPrompt == "")
      && (selectedPrompt == "" || selectedPrompt in Prompts)
    }

    /** First render plus the mount effect, which loads the entries stored by
        earlier saves (`saved`, empty when there are none). */
    constructor (saved: seq<Entry>)
      ensures Valid()
      ensures entries == saved && currentEntry == "" && selectedPrompt == "" && !isWriting
    {
      entries := saved;
      currentEntry := "";
      selectedPrompt := "";
      isWriting := false;
    }

    /** "Save Entry" with `id` and `date` taken from the clock: blank text
        changes nothing; otherwise the text, as typed, becomes the newest entry
        in front of the others, and the editor closes empty. */
    method SaveEntry(id: string, date: string)
      requires Valid()
      modifies this
      ensures Valid()
      ensures IsBlank(old(currentEntry)) ==>
        && entries == old(entries) && currentEntry == old(currentEntry)
        && selectedPrompt == old(selectedPrompt) && isWriting == old(isWriting)
      ensures !IsBlank(old(currentEntry)) ==>
        && entries == [Entry(id, date, old(currentEntry))] + old(entries)
        && |entries| == |old(entries)| + 1 && entries[1..] == old(entries)
        && currentEntry == "" && selectedPrompt == "" && !isWriting
    {
      if IsBlank(currentEntry) {
        return;
      }
      var newEntry := Entry(id, date, currentEntry);
      entries := [newEntry] + entries;
      currentEntry := "";
      selectedPrompt := "";
      isWriting := false;
    }

    /** A writing prompt: the editor opens with the prompt and a space. */
    method UsePrompt(p: string)
      requires Valid() && p in Prompts
      modifies this
      ensures Valid()
      ensures selectedPrompt == p && currentEntry == p + " " && isWriting
      ensures entries == old(entries)
    {
      selectedPrompt := p;
      currentEntry := p + " ";
      isWriting := true;
    }

    /** "Start Writing" with `today` the long date: the editor opens, and only
        when it has neither text nor a prompt does it get the date header. */
    method StartWriting(today: string)
      requires Valid()
      modifies this
      ensures Valid() && isWriting
      ensures currentEntry == if old(currentEntry) == "" && old(selectedPrompt) == "" then DateHeader(today) else old(currentEntry)
      ensures selectedPrompt == old(selectedPrompt) && entries == old(entries)
    {
      isWriting := true;
      if currentEntry == "" && selectedPrompt == "" {
        currentEntry := DateHeader(today);
      }
    }

    /** Typing in the editor. */
    method EditText(text: string)
      requires Valid() && isWriting
      modifies this
      ensures Valid() && currentEntry == text
      ensures selectedPrompt == old(selectedPrompt) && isWriting && entries == old(entries)
    {
      currentEntry := text;
    }

    /** Cancel: the editor closes empty and no entry changes. */
    method Cancel()
      requires Valid()
      modifies this
      ensures Valid()
      ensures !isWriting && currentEntry == "" && selectedPrompt == ""
      ensures entries == old(entries)
    {
      isWriting := false;
      currentEntry := "";
      selectedPrompt := "";
    }

    /** The Save button is enabled exactly when the text has a character other
        than white space. */
    function SaveEnabled(): (enabled: bool)
      reads this
      ensures enabled <==> exists i :: 0 <= i < |currentEntry| && !IsWhite(currentEntry[i])
    {
      !IsBlank(currentEntry)
    }
  }

  /** Coming back to the page, opening the editor always shows the date header,
      since nothing is left in it from before. */
  method StartWritingFresh(saved: seq<Entry>, today: string) returns (text: string)
    ensures text == DateHeader(today)
  {
    var page := new JournalPage(saved);
    page.StartWriting(today);
    text := page.currentEntry;
  }

  /** "Start Writing", typing `text`, "Save Entry": with a first character
      that is not white space, `text` becomes the newest entry and the editor
      closes. */
  method WriteEntry(page: JournalPage, text: string, id: string, date: string, today: string)
    requires page.Valid() && |text| > 0 && !IsWhite(text[0])
    modifies page
    ensures page.Valid() && !page.isWriting
    ensures page.entries == [Entry(id, date, text)] + old(page.entries)
  {
    page.StartWriting(today);
    page.EditText(text);
    page.SaveEntry(id, date);
  }

  /** Two entries written one after another are listed newest first in front
      of the stored ones. */
  method WriteTwo(saved: seq<Entry>, today: string) returns (listed: seq<Entry>, more: Option<nat>)
    ensures listed == [Entry("2", today, "Calm."), Entry("1", today, "Hi")] + saved
    ensures |saved| >= 4 ==> more == Some(|saved| - 3)
  {
    var page := new JournalPage(saved);
    WriteEntry(page, "Hi", "1", today, today);
    WriteEntry(page, "Calm.", "2", today, today);
    listed := page.entries;
    more := MoreCount(listed);
  }

  /** Saving only white space adds no entry and leaves the editor open with
      the text as it was. */
  method SaveBlank(saved: seq<Entry>, today: string) returns (listed: seq<Entry>, writing: bool, text: string)
    ensures listed == saved && writing && text == " \n\t"
  {
    var page := new JournalPage(saved);
    page.StartWriting(today);
    page.EditText(" \n\t");
    assert IsBlank(page.currentEntry);
    page.SaveEntry("x", today);
    listed := page.entries;
    writing := page.isWriting;
    text := page.currentEntry;
  }
}
