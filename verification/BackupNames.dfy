/** The cleanup allow-list on file names as text, against the parsed names the rest of the
    model uses. */
module BackupNames {
  import opened BackupSet
  import opened BackupStaging
  import opened Text

  /** At least one character between a prefix and a suffix, none of them a line break. */
  predicate Between(name: string, prefix: string, suffix: string) {
    && |name| > |prefix| + |suffix| && StartsWith(name, prefix) && EndsWith(name, suffix)
    && '\n' !in name[|prefix|..|name| - |suffix|]
  }

  predicate AllowedFor(name: string, role: Role) {
    || Between(name, "." + RoleName(role) + ".", ".db.tmp")
    || Between(name, RoleName(role) + ".", ".db")
    || Between(name, RoleName(role) + ".", ".db.manifest.json")
  }

  /** The pattern every member of a directory must match to be deleted. */
  predicate Allowed(name: string) {
    || name == ".backup-set-generation-v1" || name == "live_config.json" || name == "migration-manifest.json"
    || AllowedFor(name, State) || AllowedFor(name, Audit) || AllowedFor(name, Research)
    || Between(name, "backup-set.", ".json")
  }

  /** A name as the code writes it: drawn parts are not empty and hold no line break, a
      temporary name has eight random characters without a dot, and a name counts as
      unlisted only when it is. */
  predicate Written(m: Part) {
    match m
    case DatabaseTemp(_, stem) => stem != "" && '\n' !in stem
    case Image(_, stem) => stem != "" && '\n' !in stem
    case ImageManifest(_, stem) => stem != "" && '\n' !in stem
    case SetManifest(id) => id != "" && '\n' !in id
    case AtomicJsonTemp(_, random) => |random| == 8 && '.' !in random
    case Unlisted(text) => !Allowed(text)
    case _ => true
  }

  lemma Surrounded(prefix: string, middle: string, suffix: string)
    requires middle != "" && '\n' !in middle
    ensures Between(prefix + middle + suffix, prefix, suffix)
  {
    var name := prefix + middle + suffix;
    assert name[..|prefix|] == prefix;
    assert name[|name| - |suffix|..] == suffix;
    assert name[|prefix|..|name| - |suffix|] == middle;
  }

  lemma ListedNamesAreAllowed(m: Part)
    requires IsListed(m) && Written(m)
    ensures Allowed(Spelling(m))
  {
    match m
    case DatabaseTemp(role, stem) =>
      assert Spelling(m) == ("." + RoleName(role) + ".") + stem + ".db.tmp";
      Surrounded("." + RoleName(role) + ".", stem, ".db.tmp");
      assert AllowedFor(Spelling(m), role);
    case Image(role, stem) =>
      assert Spelling(m) == (RoleName(role) + ".") + stem + ".db";
      Surrounded(RoleName(role) + ".", stem, ".db");
      assert AllowedFor(Spelling(m), role);
    case ImageManifest(role, stem) =>
      assert Spelling(m) == (RoleName(role) + ".") + stem + ".db.manifest.json";
      Surrounded(RoleName(role) + ".", stem, ".db.manifest.json");
      assert AllowedFor(Spelling(m), role);
    case SetManifest(id) =>
      Surrounded("backup-set.", id, ".json");
    case _ =>
  }

  lemma StartDiffers(name: string, prefix: string, suffix: string, i: nat)
    requires i < |prefix| && (|name| <= i || name[i] != prefix[i])
    ensures !Between(name, prefix, suffix)
  {
  }

  /** The eight random characters keep a temporary JSON name from ending like a database's. */
  lemma TemporaryNameIsNotAllowed(target: string, random: string)
    requires |random| == 8 && '.' !in random
    ensures !Allowed("." + target + "." + random + ".tmp")
  {
    var name := "." + target + "." + random + ".tmp";
    var n := |name|;
    assert name[0] == '.' && name[n - 1] == 'p' && name[n - 7] == random[5];
    assert name[n - 7..][0] == name[n - 7] && ".db.tmp"[0] == '.';
    assert !EndsWith(name, ".db.tmp");
    forall role: Role ensures !AllowedFor(name, role) {
      assert RoleName(role)[0] != '.';
      assert (RoleName(role) + ".")[0] == RoleName(role)[0];
      StartDiffers(name, RoleName(role) + ".", ".db", 0);
      StartDiffers(name, RoleName(role) + ".", ".db.manifest.json", 0);
    }
    StartDiffers(name, "backup-set.", ".json", 0);
    assert ".backup-set-generation-v1"[24] == '1';
  }

  /** Names of the Rust tree match nothing either. */
  lemma RustNamesAreNotAllowed(m: Part)
    requires m.RustRecovery? || m.Generation? || m.ManifestJson? || m.Members? || m.PrivateStreamCursors?
      || m.ExecutionFile? || m.CursorFile?
    ensures !Allowed(Spelling(m))
  {
    var name := Spelling(m);
    forall role: Role ensures !AllowedFor(name, role) {
      StartDiffers(name, "." + RoleName(role) + ".", ".db.tmp", 0);
      NoRole(m, role);
    }
    StartDiffers(name, "backup-set.", ".json", 0);
  }

  lemma NoRole(m: Part, role: Role)
    requires m.RustRecovery? || m.Generation? || m.ManifestJson? || m.Members? || m.PrivateStreamCursors?
      || m.ExecutionFile? || m.CursorFile?
    ensures !Between(Spelling(m), RoleName(role) + ".", ".db")
      && !Between(Spelling(m), RoleName(role) + ".", ".db.manifest.json")
  {
    var prefix := RoleName(role) + ".";
    var i := if m.RustRecovery? && role.Research? then 1 else 0;
    assert prefix[i] == RoleName(role)[i];
    StartDiffers(Spelling(m), prefix, ".db", i);
    StartDiffers(Spelling(m), prefix, ".db.manifest.json", i);
  }

  /** A parsed name is on the allow-list exactly when its text matches the pattern. */
  lemma ListedIffAllowed(m: Part)
    requires Written(m)
    ensures IsListed(m) <==> Allowed(Spelling(m))
  {
    if IsListed(m) {
      ListedNamesAreAllowed(m);
    } else if m.AtomicJsonTemp? {
      TemporaryNameIsNotAllowed(m.target, m.random);
    } else if !m.Unlisted? {
      RustNamesAreNotAllowed(m);
    }
  }

  /** A crash while a JSON file is being replaced leaves a name the pattern does not match,
      so no later cleanup accepts the directory, however old it grows. */
  lemma AtomicJsonCrashBlocks(t: Tree, target: string, random: string)
    requires [AtomicJsonTemp(target, random)] in t && |random| == 8 && '.' !in random
    ensures !Allowed(Spelling(AtomicJsonTemp(target, random))) && forall now :: !Reclaimable(t, now)
  {
    ListedIffAllowed(AtomicJsonTemp(target, random));
    assert |[AtomicJsonTemp(target, random)]| == 1;
    EventuallyReclaimableIff(t);
  }
}
