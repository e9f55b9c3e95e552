/** The seller support page: status badges and labels of tickets, the SLA
    badge, the short ticket number and the guard on the new-ticket form. */
module SupportPage {
  import opened Common

  datatype Variant = DefaultBadge | SecondaryBadge | OutlineBadge

  /** `getStatusVariant`: open and in-progress tickets stand out; closed and
      unknown statuses are outlined. */
  function StatusVariant(status: string): (v: Variant)
    ensures v == DefaultBadge <==> status == "open"
    ensures v == SecondaryBadge <==> status == "in_progress"
    ensures v == OutlineBadge <==> status != "open" && status != "in_progress"
  {
    if status == "open" then DefaultBadge
    else if status == "in_progress" then SecondaryBadge
    else OutlineBadge
  }

  /** `s.replace('_', ' ')`: a string pattern replaces its first occurrence
      only, so every later underscore stays. */
  function ReplaceFirstUnderscore(s: string): (r: string)
    ensures |r| == |s|
    ensures forall k :: 0 <= k < |s| ==> r[k] == if k == IndexOf(s, '_') then ' ' else s[k]
  {
    if s == [] then []
    else if s[0] == '_' then " " + s[1..]
    else
      var rest := ReplaceFirstUnderscore(s[1..]);
      var r := [s[0]] + rest;
      var i := IndexOf(s[1..], '_');
      assert IndexOf(s, '_') == if i == -1 then -1 else i + 1;
      forall k | 0 <= k < |s| ensures r[k] == if k == IndexOf(s, '_') then ' ' else s[k] {
        if k > 0 {
          assert r[k] == rest[k - 1] && s[1..][k - 1] == s[k];
        }
      }
      r
  }

  /** Whether `\b\w` matches at position `i`: a word character with no word
      character just before it. */
  predicate StartsWord(s: string, i: int)
    requires 0 <= i < |s|
  {
    IsWordChar(s[i]) && (i == 0 || !IsWordChar(s[i - 1]))
  }

  /** `.replace(/\b\w/g, l => l.toUpperCase())`, scanning left to right;
      `afterWord` says whether the character before `s` is a word character. */
  function CapitalizeFrom(s: string, afterWord: bool): (r: string)
    ensures |r| == |s|
    ensures forall i {:trigger r[i]} :: 0 <= i < |s| ==>
      r[i] == if IsWordChar(s[i]) && (if i == 0 then !afterWord else !IsWordChar(s[i - 1])) then UpperAscii(s[i]) else s[i]
  {
    if s == [] then []
    else
      var c := if IsWordChar(s[0]) && !afterWord then UpperAscii(s[0]) else s[0];
      var rest := CapitalizeFrom(s[1..], IsWordChar(s[0]));
      var r := [c] + rest;
      forall i | 0 <= i < |s|
        ensures r[i] == if IsWordChar(s[i]) && (if i == 0 then !afterWord else !IsWordChar(s[i - 1])) then UpperAscii(s[i]) else s[i]
      {
        if i > 0 {
          assert r[i] == rest[i - 1] && s[1..][i - 1] == s[i];
          if i > 1 {
            assert s[1..][i - 2] == s[i - 1];
          }
        }
      }
      r
  }

  function CapitalizeWords(s: string): (r: string)
    ensures |r| == |s|
    ensures forall i :: 0 <= i < |s| ==> r[i] == if StartsWord(s, i) then UpperAscii(s[i]) else s[i]
  {
    var r := CapitalizeFrom(s, false);
    forall i | 0 <= i < |s| ensures r[i] == if StartsWord(s, i) then UpperAscii(s[i]) else s[i] {

    }
    r
  }

  /** `getStatusLabel`: the first underscore becomes a space, then every
      word starts with a capital, so "in_progress" reads "In Progress". */
  function StatusLabel(status: string): (r: string)
    ensures |r| == |status|
    ensures var spaced := ReplaceFirstUnderscore(status);
      forall i :: 0 <= i < |status| ==> r[i] == if StartsWord(spaced, i) then UpperAscii(spaced[i]) else spaced[i]
  {
    CapitalizeWords(ReplaceFirstUnderscore(status))
  }

  /** The SLA window of a ticket, in milliseconds: 24 hours. */
  const SlaMillis: int := 86_400_000
  /** Above this share of the window (0.8 of 24 hours) a warning shows. */
  const WarningMillis: int := 69_120_000

  datatype SlaBadge = Breach | Warning

  /** `getSlaStatus` at time `now`: closed tickets get no badge; otherwise a
      breach beyond 24 hours, a warning beyond 0.8 of them, else none. */
  function SlaStatus(createdAt: int, now: int, status: string): (b: Option<SlaBadge>)
    ensures status == "closed" ==> b.None?
    ensures b == Some(Breach) <==> status != "closed" && now - createdAt > SlaMillis
    ensures b == Some(Warning) <==> status != "closed" && WarningMillis < now - createdAt <= SlaMillis
    ensures b.None? <==> status == "closed" || now - createdAt <= WarningMillis
  {
    if status == "closed" then None
    else
      var elapsed := now - createdAt;
      if elapsed > SlaMillis then Some(Breach)
      else if elapsed > WarningMillis then Some(Warning)
      else None
  }

  /** The badge grows more severe as time passes. */
  lemma SlaMonotone(createdAt: int, now: int, later: int, status: string)
    requires now <= later
    ensures SlaStatus(createdAt, now, status) == Some(Breach) ==> SlaStatus(createdAt, later, status) == Some(Breach)
    ensures SlaStatus(createdAt, now, status) == Some(Warning) ==> SlaStatus(createdAt, later, status).Some?
  {
  }

  /** `ticket.id.slice(0, 8)`. */
  function TicketNumber(id: string): (r: string)
    ensures |r| == if |id| < 8 then |id| else 8
    ensures r == id[..|r|]
  {
    if |id| < 8 then id else id[..8]
  }

  /** The new-ticket form is sent only when neither field is blank. */
  function CanSubmit(subject: string, message: string): (ok: bool)
    ensures ok <==> !AllSpace(subject) && !AllSpace(message)
  {
    Trim(subject) != "" && Trim(message) != ""
  }
}
