/** Mailbox names, internal/imapbackend/names.go. */
module MailboxNames {
  import opened Seqs
  import opened Text

  /** What a mailbox is to the remote API. */
  datatype MailboxSpec = MailboxSpec(param1: string, param2: string)

  const INBOX := MailboxSpec("inbox", "")
  const SENT := MailboxSpec("sent", "")
  const DRAFTS := MailboxSpec("draft", "")
  const JUNK := MailboxSpec("spam", "")
  const TRASH := MailboxSpec("trash", "")
  const IMPORTANT := MailboxSpec("important", "")

  const STANDARD := {INBOX, SENT, DRAFTS, JUNK, TRASH, IMPORTANT}

  /** Go's int. */
  type Id = n: int | -MAX_INT64 - 1 <= n <= MAX_INT64

  function FolderSpec(id: Id): MailboxSpec {
    MailboxSpec("folders", Itoa(id))
  }

  function TagSpec(id: Id): MailboxSpec {
    MailboxSpec("tags", Itoa(id))
  }

  // ---- Parsing and canonical names ----

  function ParseStandard(low: string): Option<MailboxSpec> {
    if low == "inbox" then Some(INBOX)
    else if low == "sent" then Some(SENT)
    else if low == "drafts" then Some(DRAFTS)
    else if low == "trash" then Some(TRASH)
    else if low == "junk" || low == "spam" then Some(JUNK)
    else if low == "important" then Some(IMPORTANT)
    else None
  }

  /** `kind-<integer>` in lower case. */
  function ParseNumbered(low: string, prefix: string, param1: string): Option<MailboxSpec>
    requires HasPrefix(low, prefix)
  {
    var id := low[|prefix|..];
    if Atoi(id).Some? then Some(MailboxSpec(param1, id)) else None
  }

  function ParseMailboxName(name: string): Option<MailboxSpec> {
    var low := Lower(Trim(name));
    if ParseStandard(low).Some? then ParseStandard(low)
    else if HasPrefix(low, "folder-") then ParseNumbered(low, "folder-", "folders")
    else if HasPrefix(low, "tag-") then ParseNumbered(low, "tag-", "tags")
    else None
  }

  function CanonicalName(spec: MailboxSpec): string {
    if spec.param1 == "inbox" then "INBOX"
    else if spec.param1 == "sent" then "Sent"
    else if spec.param1 == "draft" then "Drafts"
    else if spec.param1 == "trash" then "Trash"
    else if spec.param1 == "spam" then "Junk"
    else if spec.param1 == "important" then "Important"
    else if spec.param1 == "folders" then "Folder-" + spec.param2
    else if spec.param1 == "tags" then "Tag-" + spec.param2
    else "INBOX"
  }

  /** A name of letters followed by a decimal id. */
  lemma NumberedLower(word: string, id: Id)
    requires word != "" && !IsSpace(word[0])
    ensures var name := word + Itoa(id); Trim(name) == name && Lower(name) == Lower(word) + Itoa(id)
  {
    var name := word + Itoa(id);
    LowerItoa(id);
    assert name[|name| - 1] == Itoa(id)[|Itoa(id)| - 1];
    TrimTrims(name);
    assert Lower(name) == Lower(word) + Lower(Itoa(id));
  }

  lemma LowerFixed()
    ensures Lower("Folder-") == "folder-" && Lower("Tag-") == "tag-"
    ensures Lower("INBOX") == "inbox" && Lower("Sent") == "sent" && Lower("Drafts") == "drafts"
    ensures Lower("Junk") == "junk" && Lower("Trash") == "trash" && Lower("Important") == "important"
  {
  }

  lemma NumberedNotStandard(low: string)
    requires HasPrefix(low, "folder-") || HasPrefix(low, "tag-")
    ensures ParseStandard(low) == None
  {
    assert low[0] == "folder-"[0] || low[0] == "tag-"[0];
    assert low[1] == "folder-"[1] || low[1] == "tag-"[1];
  }

  lemma ParseCanonicalFolder(id: Id)
    ensures ParseMailboxName(CanonicalName(FolderSpec(id))) == Some(FolderSpec(id))
  {
    NumberedLower("Folder-", id);
    LowerFixed();
    var low := "folder-" + Itoa(id);
    NumberedNotStandard(low);
    AtoiItoa(id);
    assert low[|"folder-"|..] == Itoa(id);
  }

  lemma TagIsNoFolder(low: string)
    requires HasPrefix(low, "tag-")
    ensures !HasPrefix(low, "folder-")
  {
    assert low[..4][0] == low[0];
    if |low| >= 7 {
      assert low[..7][0] == low[0] != "folder-"[0];
    }
  }

  lemma ParseCanonicalTag(id: Id)
    ensures ParseMailboxName(CanonicalName(TagSpec(id))) == Some(TagSpec(id))
  {
    hide Itoa, Atoi, Trim, Lower;
    NumberedLower("Tag-", id);
    LowerFixed();
    var low := "tag-" + Itoa(id);
    assert HasPrefix(low, "tag-");
    NumberedNotStandard(low);
    TagIsNoFolder(low);
    AtoiItoa(id);
    assert low[|"tag-"|..] == Itoa(id);
  }

  lemma ParseCanonicalStandard(spec: MailboxSpec)
    requires spec in STANDARD
    ensures ParseMailboxName(CanonicalName(spec)) == Some(spec)
  {
    LowerFixed();
    TrimTrims(CanonicalName(spec));
    hide Trim, Lower;
  }

  /** A mailbox's canonical name parses back to it: for the six standard mailboxes and
      for every folder and tag id. */
  lemma ParseCanonical(spec: MailboxSpec)
    requires spec in STANDARD || exists id: Id :: spec == FolderSpec(id) || spec == TagSpec(id)
    ensures ParseMailboxName(CanonicalName(spec)) == Some(spec)
  {
    if spec in STANDARD {
      ParseCanonicalStandard(spec);
    } else {
      var id: Id :| spec == FolderSpec(id) || spec == TagSpec(id);
      ParseCanonicalFolder(id);
      ParseCanonicalTag(id);
    }
  }

  /** What a trimmed name in lower case is when it means the mailbox. */
  predicate Spells(low: string, spec: MailboxSpec) {
    match spec.param1
    case "inbox" => spec == INBOX && low == "inbox"
    case "sent" => spec == SENT && low == "sent"
    case "draft" => spec == DRAFTS && low == "drafts"
    case "spam" => spec == JUNK && (low == "junk" || low == "spam")
    case "trash" => spec == TRASH && low == "trash"
    case "important" => spec == IMPORTANT && low == "important"
    case "folders" => low == "folder-" + spec.param2 && Atoi(spec.param2).Some?
    case "tags" => low == "tag-" + spec.param2 && Atoi(spec.param2).Some?
    case _ => false
  }

  /** A name is read as a mailbox if and only if it spells it, in any case; Spam is another
      word for Junk. */
  lemma ParsesExactly(name: string, spec: MailboxSpec)
    ensures ParseMailboxName(name) == Some(spec) <==> Spells(Lower(Trim(name)), spec)
  {
    hide Trim, Lower, Atoi;
    var low := Lower(Trim(name));
    if HasPrefix(low, "folder-") {
      NumberedNotStandard(low);
      assert low == "folder-" + low[|"folder-"|..];
    } else if HasPrefix(low, "tag-") {
      NumberedNotStandard(low);
      assert low == "tag-" + low[|"tag-"|..];
    }
    NumberedSpells(low, spec);
  }

  lemma NumberedSpells(low: string, spec: MailboxSpec)
    ensures low == "folder-" + spec.param2 ==> HasPrefix(low, "folder-") && low[|"folder-"|..] == spec.param2
    ensures low == "tag-" + spec.param2 ==> HasPrefix(low, "tag-") && low[|"tag-"|..] == spec.param2
    ensures HasPrefix(low, "tag-") ==> !HasPrefix(low, "folder-")
  {
    if HasPrefix(low, "tag-") {
      TagIsNoFolder(low);
    }
  }

  // ---- Cache keys ----

  function SpecCacheKey(s: MailboxSpec): string {
    if s.param2 != "" then s.param1 + "/" + s.param2 else s.param1
  }

  /** Different mailboxes have different cache keys, as long as the first parameter,
      which is always one of eight words, has no slash. */
  lemma SpecCacheKeyInjective(s: MailboxSpec, t: MailboxSpec)
    requires '/' !in s.param1 && '/' !in t.param1 && SpecCacheKey(s) == SpecCacheKey(t)
    ensures s == t
  {
    KeyParts(s);
    KeyParts(t);
  }

  lemma KeyParts(s: MailboxSpec)
    requires '/' !in s.param1
    ensures var key := SpecCacheKey(s); var i := Find(key, '/');
            s == MailboxSpec(key[..i], if i < |key| then key[i + 1..] else "")
  {
    var key := SpecCacheKey(s);
    if s.param2 != "" {
      FindAt(s.param1, '/', s.param2);
      assert key == s.param1 + ['/'] + s.param2;
    } else {
      FindNone(key, '/');
    }
  }

  // ---- Sanitising labels ----

  predicate IsControl(c: char) {
    c < ' ' || c == 127 as char
  }

  /** Slashes become dashes, control characters go. */
  function Clean(s: string): string {
    if s == "" then ""
    else if s[0] == '/' || s[0] == '\\' then "-" + Clean(s[1..])
    else if IsControl(s[0]) then Clean(s[1..])
    else [s[0]] + Clean(s[1..])
  }

  const MAX_LABEL: nat := 200

  function Sanitized(s: string): string {
    var out := Trim(Clean(Trim(s)));
    if |out| > MAX_LABEL then out[..MAX_LABEL] else out
  }

  predicate IsFlat(s: string) {
    forall c :: c in s ==> c != '/' && c != '\\' && !IsControl(c)
  }

  lemma {:induction false} CleanSnoc(s: string, c: char)
    ensures Clean(s + [c]) == Clean(s) + Clean([c])
  {
    if s == "" {
      assert s + [c] == [c];
    } else {
      CleanSnoc(s[1..], c);
      ConcatTail(s, [c]);
    }
  }

  lemma {:induction false} CleanIsFlat(s: string)
    ensures IsFlat(Clean(s))
  {
    if s != "" {
      CleanIsFlat(s[1..]);
    }
  }

  lemma {:induction false} FlatIsClean(s: string)
    requires IsFlat(s)
    ensures Clean(s) == s
  {
    if s != "" {
      assert forall c :: c in s[1..] ==> c in s;
      FlatIsClean(s[1..]);
      assert s[0] in s;
    }
  }

  lemma {:induction false} TrimLeftPart(s: string)
    ensures forall c :: c in TrimLeft(s) ==> c in s
  {
    if s != "" && IsSpace(s[0]) {
      TrimLeftPart(s[1..]);
    }
  }

  lemma {:induction false} TrimRightPart(s: string)
    ensures forall c :: c in TrimRight(s) ==> c in s
  {
    if s != "" && IsSpace(s[|s| - 1]) {
      TrimRightPart(s[..|s| - 1]);
    }
  }

  /** A label has no separators or control characters and at most 200 bytes; when nothing
      had to be cut off it is trimmed as well. */
  lemma SanitizedIsLabel(s: string)
    ensures IsFlat(Sanitized(s)) && |Sanitized(s)| <= MAX_LABEL
    ensures |Trim(Clean(Trim(s)))| <= MAX_LABEL ==> Trimmed(Sanitized(s))
  {
    var cleaned := Clean(Trim(s));
    CleanIsFlat(Trim(s));
    TrimLeftPart(cleaned);
    TrimRightPart(TrimLeft(cleaned));
    TrimTrims(cleaned);
  }

  /** The rune loop of sanitizeIMAPMailboxName. */
  method SanitizeIMAPMailboxName(s: string) returns (r: string)
    ensures r == Sanitized(s)
  {
    var t := Trim(s);
    if t == "" {
      return "";
    }
    var b := "";
    for i := 0 to |t|
      invariant b == Clean(t[..i])
    {
      CleanSnoc(t[..i], t[i]);
      assert t[..i + 1] == t[..i] + [t[i]];
      if t[i] == '/' || t[i] == '\\' {
        b := b + "-";
      } else if !IsControl(t[i]) {
        b := b + [t[i]];
      }
    }
    assert t[..|t|] == t;
    var out := Trim(b);
    if |out| > MAX_LABEL {
      return out[..MAX_LABEL];
    }
    return out;
  }
}
