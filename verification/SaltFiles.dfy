/** The salt functions as one process runs them, against a directory object. */
module SaltFiles {
  import opened Options
  import opened Ciphers
  import opened SaltProtocol

  datatype SaltError = Unavailable | Unreadable

  /** How a publication ends: linked, FileExistsError, or another OSError. */
  datatype Publication = Linked | Exists | Failed

  /** The entry once a publication has begun: another process may have linked its salt meanwhile. */
  function AfterRival(visible: Option<File>, rival: Option<Salt>): Option<File> {
    if visible.None? && rival.Some? then Some(File(rival.value, Yes)) else visible
  }

  class SaltDirectory {
    var visible: Option<File>
    var durable: Option<File>

    /** Durable entries are visible, and linked files were synced first. */
    ghost predicate Valid()
      reads this
    {
      && (visible.Some? ==> visible.value.File? && visible.value.synced == Yes)
      && (durable.Some? ==> visible == durable)
    }

    constructor ()
      ensures Valid() && visible.None?
    {
      visible, durable := None, None;
    }

    /** Another process publishes a salt it has synced. */
    method RivalPublishes(rival: Option<Salt>)
      requires Valid()
      modifies this`visible
      ensures Valid() && visible == AfterRival(old(visible), rival)
    {
      if visible.None? && rival.Some? {
        visible := Some(File(rival.value, Yes));
      }
    }

    /**
      _publish_salt_file: write and sync a private file, then link it.  Until the link another
      process may publish; whoever is first stays, and the loser is told so.
     */
    method PublishSaltFile(salt: Salt, rival: Option<Salt>, canPublish: bool) returns (outcome: Publication)
      requires Valid()
      modifies this`visible
      ensures Valid()
      ensures outcome.Failed? <==> !canPublish
      ensures outcome.Exists? <==> canPublish && AfterRival(old(visible), rival).Some?
      ensures visible == if outcome.Linked? then Some(File(salt, Yes)) else AfterRival(old(visible), rival)
    {
      var tmp := File(salt, No);
      RivalPublishes(rival);
      if !canPublish {
        return Failed;
      }
      tmp := tmp.(synced := Yes);
      if visible.Some? {
        return Exists;
      }
      visible := Some(tmp);
      outcome := Linked;
    }

    /** _fsync_directory. */
    method Sync()
      requires Valid()
      modifies this`durable
      ensures Valid() && durable == visible
    {
      durable := visible;
    }
  }

  class SaltUser {
    var durableSalts: set<Salt>

    /** What this process believes durable is durable. */
    ghost predicate Valid(dir: SaltDirectory)
      reads this, dir
    {
      dir.Valid() && forall salt :: salt in durableSalts ==> dir.durable == Some(File(salt, Yes))
    }

    /** _make_key_file_salt_durable: once per salt this process has observed. */
    method MakeSaltDurable(dir: SaltDirectory, canSync: bool) returns (ok: bool)
      requires Valid(dir) && dir.visible.Some?
      modifies this, dir`durable
      ensures Valid(dir)
      ensures ok <==> canSync || dir.visible.value.salt in old(durableSalts)
      ensures ok ==> dir.durable == dir.visible && durableSalts == old(durableSalts) + {dir.visible.value.salt}
      ensures !ok ==> dir.durable == old(dir.durable) && durableSalts == old(durableSalts)
    {
      var salt := dir.visible.value.salt;
      if salt in durableSalts {
        return true;
      }
      if !canSync {
        return false;
      }
      dir.Sync();
      durableSalts := durableSalts + {salt};
      ok := true;
    }

    /**
      _load_or_create_key_file_salt, with another process that may publish after this one has
      looked.  The salt returned is the one that was there, else the rival's, else the generated
      one, and it is durable; an existing salt is never replaced, and a refusal never falls back
      to another key.
     */
    method LoadOrCreateKeyFileSalt(dir: SaltDirectory, generated: Salt, rival: Option<Salt>,
                                   canPublish: bool, canRead: bool, canSync: bool)
      returns (r: Result<Salt, SaltError>)
      requires Valid(dir)
      modifies this, dir
      ensures Valid(dir)
      ensures old(dir.visible).Some? ==> dir.visible == old(dir.visible)
      ensures old(dir.visible).None? ==>
        dir.visible == if rival.Some? then Some(File(rival.value, Yes))
                       else if canPublish then Some(File(generated, Yes)) else None
      ensures var found := old(dir.visible).Some? || canPublish;
        && (r.Ok? <==> found && canRead && (canSync || dir.visible.value.salt in old(durableSalts)))
        && (r == Err(Unreadable) <==> found && !canRead)
      ensures r.Ok? ==> dir.durable == dir.visible == Some(File(r.value, Yes)) && r.value in durableSalts
      ensures r.Err? ==> dir.durable == old(dir.durable) && durableSalts == old(durableSalts)
    {
      if dir.visible.None? {
        var outcome := dir.PublishSaltFile(generated, rival, canPublish);
        if outcome.Failed? {
          return Err(Unavailable);
        }
      }
      if !canRead {
        return Err(Unreadable);
      }
      var salt := dir.visible.value.salt;
      var durable := MakeSaltDurable(dir, canSync);
      if !durable {
        return Err(Unavailable);
      }
      r := Ok(salt);
    }
  }
}
