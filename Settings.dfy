/** The two places where lighty_mtg.py reads or rewrites its settings:
    `is_enabled_not_banned` (the enable flag and the comma-separated ban
    list) and `refresh_token` (rewriting the token lines of settings.cfg). */
module Settings {
  import opened Wrappers
  import Text

  /** The loaded settings: each key maps to the list of its values; the bot
      always reads element 0. */
  type Store = map<string, seq<string>>

  const BannedUsersKey: string := "banned_users"

  /** `is_enabled_not_banned(module, user)`. `None` is the exception the source
      raises: a missing module key (`SETTINGS[module]` is a KeyError) or an
      empty value list (IndexError). A missing ban list defaults to `[""]`. */
  function EnabledNotBanned(settings: Store, flag: string, userId: nat): (r: Option<bool>)
    ensures r.Some? <==> flag in settings && |settings[flag]| >= 1
                         && (settings[flag][0] == "True" ==>
                               BannedUsersKey !in settings || |settings[BannedUsersKey]| >= 1)
    ensures r.Some? ==>
              (r.value <==> settings[flag][0] == "True"
                            && !Banned((if BannedUsersKey in settings then settings[BannedUsersKey] else [""])[0], userId))
  {
    if flag !in settings || |settings[flag]| == 0 then None
    else if settings[flag][0] != "True" then Some(false)
    else
      var banned := if BannedUsersKey in settings then settings[BannedUsersKey] else [""];
      if |banned| == 0 then None
      else Some(!Banned(banned[0], userId))
  }

  /** `str(user.id) in ban_list.split(',')`. */
  predicate Banned(banList: string, userId: nat)
  {
    Text.NatToString(userId) in Text.Split(banList, ',')
  }

  /** The decimal strings of a list of ids. */
  function IdStrings(ids: seq<nat>): (r: seq<string>)
    ensures |r| == |ids|
    ensures forall i :: 0 <= i < |ids| ==> r[i] == Text.NatToString(ids[i])
  {
    if ids == [] then [] else [Text.NatToString(ids[0])] + IdStrings(ids[1..])
  }

  lemma IdStringsHaveNoComma(ids: seq<nat>)
    ensures forall i :: 0 <= i < |ids| ==> ',' !in IdStrings(ids)[i]
  {
    var strs := IdStrings(ids);
    forall i | 0 <= i < |strs| ensures ',' !in strs[i] {
      forall k | 0 <= k < |strs[i]| ensures strs[i][k] != ',' {
        assert Text.IsDigit(strs[i][k]);
      }
    }
  }

  /** A decimal id is listed exactly when the id is. */
  lemma IdStringListed(ids: seq<nat>, userId: nat)
    ensures Text.NatToString(userId) in IdStrings(ids) <==> userId in ids
  {
    var strs := IdStrings(ids);
    if userId in ids {
      var i :| 0 <= i < |ids| && ids[i] == userId;
      assert strs[i] == Text.NatToString(userId);
    } else {
      forall i | 0 <= i < |strs| ensures strs[i] != Text.NatToString(userId) {
        if strs[i] == Text.NatToString(userId) {
          Text.NatToStringInjective(ids[i], userId);
        }
      }
    }
  }

  /** For a ban list written as decimal ids joined by commas, a user is
      banned exactly when their id is listed. */
  lemma BanListByIds(ids: seq<nat>, userId: nat)
    requires |ids| >= 1
    ensures Banned(Text.Join(IdStrings(ids), ','), userId) <==> userId in ids
  {
    IdStringsHaveNoComma(ids);
    Text.SplitJoin(IdStrings(ids), ',');
    IdStringListed(ids, userId);
  }


  /** With no ban list configured, an enabled module admits everyone. */
  lemma NoBanListAdmitsAll(settings: Store, flag: string, userId: nat)
    requires flag in settings && |settings[flag]| >= 1 && settings[flag][0] == "True"
    requires BannedUsersKey !in settings
    ensures EnabledNotBanned(settings, flag, userId) == Some(true)
  {
    assert Text.Split("", ',') == [""];
    assert |Text.NatToString(userId)| >= 1;
  }

  /** The ban list is split on commas only: in `"1, 2"` the second entry is
      `" 2"`, so user 2 is not banned by it. */
  lemma SpaceAfterCommaDoesNotBan(settings: Store, flag: string)
    requires flag in settings && |settings[flag]| >= 1 && settings[flag][0] == "True"
    requires BannedUsersKey in settings && settings[BannedUsersKey] == ["1, 2"]
    ensures EnabledNotBanned(settings, flag, 2) == Some(true)
    ensures EnabledNotBanned(settings, flag, 1) == Some(false)
  {
    Text.SplitNoSeparator(" 2", ',');
    Text.SplitAfterPiece("1", " 2", ',');
    assert "1" + [','] + " 2" == "1, 2";
    assert Text.NatToString(2) == "2";
    assert Text.NatToString(1) == "1";
  }

  /** The flag must read exactly "True": any other first value (such as
      "true" or "1") refuses every user, and a flag without a first value
      raises whatever the ban list says. */
  lemma FlagExactlyTrue(settings: Store, flag: string, userId: nat)
    ensures FirstValue(settings, flag).None? ==> EnabledNotBanned(settings, flag, userId).None?
    ensures FirstValue(settings, flag).Some? && FirstValue(settings, flag).value != "True"
            ==> EnabledNotBanned(settings, flag, userId) == Some(false)
    ensures EnabledNotBanned(settings, flag, userId) == Some(true) ==> FirstValue(settings, flag) == Some("True")
  {
  }

  /** `SETTINGS[key][0]`: `None` where that raises (missing key or empty list). */
  function FirstValue(settings: Store, key: string): (r: Option<string>)
    ensures r.Some? <==> key in settings && |settings[key]| >= 1
    ensures r.Some? ==> r.value == settings[key][0]
  {
    if key in settings && |settings[key]| >= 1 then Some(settings[key][0]) else None
  }

  /** `int(SETTINGS.get("user_queue_depth", [1])[0])`: 1 when the key is
      missing; `None` where the source raises (an empty list, or a value that
      is not a plain decimal number). */
  function QueueDepth(settings: Store): (r: Option<nat>)
    ensures "user_queue_depth" !in settings ==> r == Some(1)
    ensures "user_queue_depth" in settings ==>
      (r.Some? <==> |settings["user_queue_depth"]| >= 1 && settings["user_queue_depth"][0] != []
                    && Text.AllDigits(settings["user_queue_depth"][0]))
    ensures r.Some? && "user_queue_depth" in settings ==> r.value == Text.ParseDecimal(settings["user_queue_depth"][0])
  {
    if "user_queue_depth" !in settings then Some(1)
    else if |settings["user_queue_depth"]| == 0 then None
    else
      var v := settings["user_queue_depth"][0];
      if v != [] && Text.AllDigits(v) then Some(Text.ParseDecimal(v)) else None
  }

  /** A depth written out with `str(n)` is read back as n. */
  lemma QueueDepthWritten(settings: Store, n: nat)
    requires "user_queue_depth" in settings && |settings["user_queue_depth"]| >= 1
    requires settings["user_queue_depth"][0] == Text.NatToString(n)
    ensures QueueDepth(settings) == Some(n)
  {
    Text.ParseNatToString(n);
  }

  // ---------------------------------------------------------------------------
  // refresh_token: rewriting the token lines of settings.cfg
  // ---------------------------------------------------------------------------

  const AuthPrefix: string := "twitch_channel_auth="
  const RefreshPrefix: string := "twitch_channel_refresh_token="

  /** Python's f-string rendering of a value that may be `None`. */
  function Show(v: Option<string>): string
  {
    match v
    case Some(s) => s
    case None => "None"
  }

  /** The lines after the first line starting with `prefix` (if any) is replaced by `line`. */
  function ReplaceFirst(lines: seq<string>, prefix: string, line: string): seq<string>
  {
    if lines == [] then []
    else if Text.StartsWith(lines[0], prefix) then [line] + lines[1..]
    else [lines[0]] + ReplaceFirst(lines[1..], prefix, line)
  }

  /** Index of the first line starting with `prefix`, or |lines| when there is none. */
  function FirstMatch(lines: seq<string>, prefix: string): (k: nat)
    ensures k <= |lines|
    ensures k < |lines| ==> Text.StartsWith(lines[k], prefix)
    ensures forall j :: 0 <= j < k ==> !Text.StartsWith(lines[j], prefix)
  {
    if lines == [] then 0
    else if Text.StartsWith(lines[0], prefix) then 0
    else FirstMatch(lines[1..], prefix) + 1
  }

  /** Only the first matching line changes; the number of lines and every
      other line stay as they were (and nothing changes without a match). */
  lemma {:induction false} ReplaceFirstSpec(lines: seq<string>, prefix: string, line: string)
    ensures |ReplaceFirst(lines, prefix, line)| == |lines|
    ensures forall j :: 0 <= j < |lines| ==>
      ReplaceFirst(lines, prefix, line)[j] == if j == FirstMatch(lines, prefix) then line else lines[j]
  {
    if lines != [] && !Text.StartsWith(lines[0], prefix) {
      ReplaceFirstSpec(lines[1..], prefix, line);
      var r := ReplaceFirst(lines, prefix, line);
      forall j | 1 <= j < |lines|
        ensures r[j] == if j == FirstMatch(lines, prefix) then line else lines[j]
      {
        assert r[j] == ReplaceFirst(lines[1..], prefix, line)[j - 1];
      }
    }
  }

  /** One `for i, line in enumerate(lines): if line.startswith(prefix): lines[i] = …; break` loop. */
  method ReplaceFirstLine(lines: array<string>, prefix: string, line: string)
    modifies lines
    ensures lines[..] == ReplaceFirst(old(lines[..]), prefix, line)
  {
    ghost var original := lines[..];
    ReplaceFirstSpec(original, prefix, line);
    var i := 0;
    while i < lines.Length
      invariant 0 <= i <= lines.Length
      invariant lines[..] == original
      invariant forall j :: 0 <= j < i ==> !Text.StartsWith(original[j], prefix)
      invariant i <= FirstMatch(original, prefix)
    {
      if Text.StartsWith(lines[i], prefix) {
        lines[i] := line;
        assert lines[..] == ReplaceFirst(original, prefix, line);
        return;
      }
      i := i + 1;
    }
    assert lines[..] == ReplaceFirst(original, prefix, line);
  }

  /** The settings text after a successful refresh. */
  function RewrittenSettings(lines: seq<string>, access: Option<string>, refresh: Option<string>): seq<string>
  {
    var afterAuth := ReplaceFirst(lines, AuthPrefix, AuthPrefix + Show(access) + "\n");
    ReplaceFirst(afterAuth, RefreshPrefix, RefreshPrefix + Show(refresh) + "\n")
  }

  lemma PrefixesExclusive(s: string)
    ensures Text.StartsWith(s, AuthPrefix) ==> !Text.StartsWith(s, RefreshPrefix)
  {
    if Text.StartsWith(s, AuthPrefix) {
      assert s[15] == s[..|AuthPrefix|][15] == 'a';
      assert |s| < |RefreshPrefix| || s[..|RefreshPrefix|][15] != RefreshPrefix[15];
    }
  }


  /** Two lists whose lines start with `prefix` at the same places have the same first match. */
  lemma {:induction false} FirstMatchSamePlaces(a: seq<string>, b: seq<string>, prefix: string)
    requires |a| == |b|
    requires forall j :: 0 <= j < |a| ==> (Text.StartsWith(a[j], prefix) <==> Text.StartsWith(b[j], prefix))
    ensures FirstMatch(a, prefix) == FirstMatch(b, prefix)
  {
    if a != [] && !Text.StartsWith(a[0], prefix) {
      FirstMatchSamePlaces(a[1..], b[1..], prefix);
    }
  }

  /** A refresh replaces the first `twitch_channel_auth=` line and the first
      `twitch_channel_refresh_token=` line of the file as it was read, and
      leaves the number of lines and every other line unchanged. */
  lemma RewrittenSettingsSpec(lines: seq<string>, access: Option<string>, refresh: Option<string>)
    ensures |RewrittenSettings(lines, access, refresh)| == |lines|
    ensures forall j :: 0 <= j < |lines| ==>
      RewrittenSettings(lines, access, refresh)[j] ==
        if j == FirstMatch(lines, AuthPrefix) then AuthPrefix + Show(access) + "\n"
        else if j == FirstMatch(lines, RefreshPrefix) then RefreshPrefix + Show(refresh) + "\n"
        else lines[j]
  {
    var authLine := AuthPrefix + Show(access) + "\n";
    var refreshLine := RefreshPrefix + Show(refresh) + "\n";
    var mid := ReplaceFirst(lines, AuthPrefix, authLine);
    ReplaceFirstSpec(lines, AuthPrefix, authLine);
    var ka := FirstMatch(lines, AuthPrefix);
    assert authLine[..|AuthPrefix|] == AuthPrefix;
    PrefixesExclusive(authLine);
    forall j | 0 <= j < |mid|
      ensures Text.StartsWith(mid[j], RefreshPrefix) <==> Text.StartsWith(lines[j], RefreshPrefix)
    {
      if j == ka {
        PrefixesExclusive(lines[j]);
      }
    }
    FirstMatchSamePlaces(mid, lines, RefreshPrefix);
    ReplaceFirstSpec(mid, RefreshPrefix, refreshLine);
    if ka < |lines| {
      PrefixesExclusive(lines[ka]);
    }
  }


  /** `refresh_token` after the HTTP exchange: the status code and the two
      token fields of the reply are inputs, `lines` is the content of
      settings.cfg. On status 200 the token lines are rewritten and the new
      access token returned; otherwise nothing changes and `None` is returned. */
  method RefreshToken(status: int, access: Option<string>, refresh: Option<string>, lines: array<string>)
    returns (newAccess: Option<string>)
    modifies lines
    ensures status == 200 ==> newAccess == access && lines[..] == RewrittenSettings(old(lines[..]), access, refresh)
    ensures status != 200 ==> newAccess == None && lines[..] == old(lines[..])
  {
    newAccess := None;
    if status == 200 {
      newAccess := access;
      ReplaceFirstLine(lines, AuthPrefix, AuthPrefix + Show(access) + "\n");
      ReplaceFirstLine(lines, RefreshPrefix, RefreshPrefix + Show(refresh) + "\n");
    }
  }
}
