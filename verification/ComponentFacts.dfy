/** What installing, uninstalling, reconciling, importing, removing and versioning
    a component do to its entry, field by field. */
module ComponentFacts {
  import opened Text
  import opened Components

  /** Nothing but this entry, the cached scan and the record may differ. */
  ghost predicate OnlyEntry(s: State, t: State, name: string) {
    && t.systemNamespace == s.systemNamespace && t.items.Keys == s.items.Keys
    && forall n :: n in s.items && n != name ==> t.items[n] == s.items[n]
  }

  predicate Goes(s: State, op: Op) { Apply(s, op).1 }

  function After(s: State, op: Op): State { Apply(s, op).0 }

  /** Installing: for an embedded chart that is not installed. Helm says in which
      namespace, or why not; a success is knaic's and drops the cached scan. */
  lemma InstallEffect(s: State, name: string, helm: Result<string>)
    ensures var op := Install(name, helm);
            var t := After(s, op);
            && (Goes(s, op) <==> name in s.items && !s.items[name].status.Installed? && s.items[name].embedded)
            && (!Goes(s, op) ==> t == s)
            && (Goes(s, op) ==>
                  var c := s.items[name];
                  && OnlyEntry(s, t, name)
                  && (helm.Ok? ==> t.cache.None? && t.log == s.log + [HelmInstalled(name)])
                  && (helm.Ok? ==> t.items[name] == c.(status := Installed, namespace_ := helm.value, managedBy := Knaic,
                                                          lastError := ""))
                  && (helm.Err? ==> t.cache == s.cache && t.log == s.log)
                  && (helm.Err? ==> t.items[name] == c.(status := Failed, lastError := helm.error)))
  {
    assert Goes(s, Install(name, helm)) ==> After(s, Install(name, helm)).items.Keys == s.items.Keys;
  }

  /** Uninstalling: only what is installed and knaic's. Where it stood is kept. */
  lemma UninstallEffect(s: State, name: string, helm: Result<string>)
    ensures var op := Uninstall(name, helm);
            var t := After(s, op);
            && (Goes(s, op) <==> name in s.items && s.items[name].status.Installed? && s.items[name].managedBy.Knaic?)
            && (!Goes(s, op) ==> t == s)
            && (Goes(s, op) ==>
                  var c := s.items[name];
                  && OnlyEntry(s, t, name) && t.log == s.log + [HelmUninstall(name)]
                  && t.cache == (if helm.Ok? then None else s.cache)
                  && (helm.Ok? ==> t.items[name] == c.(status := NotInstalled, managedBy := Nobody, lastError := ""))
                  && (helm.Err? ==> t.items[name] == c.(status := Failed, lastError := helm.error)))
  {
    assert Goes(s, Uninstall(name, helm)) ==> After(s, Uninstall(name, helm)).items.Keys == s.items.Keys;
  }

  /** Reconciling: an installed embedded chart, whoever manages it; the entry tells
      whether it worked. */
  lemma ReconcileEffect(s: State, name: string, helm: Result<string>)
    ensures var op := Reconcile(name, helm);
            var t := After(s, op);
            && (Goes(s, op) <==> name in s.items && s.items[name].status.Installed? && s.items[name].embedded)
            && (!Goes(s, op) ==> t == s)
            && (Goes(s, op) ==>
                  var c := s.items[name];
                  && OnlyEntry(s, t, name) && t.cache == s.cache && t.log == s.log
                  && (helm.Ok? ==> t.items[name] == c.(status := Installed, lastError := ""))
                  && (helm.Err? ==> t.items[name] == c.(status := Failed, lastError := helm.error)))
  {
    assert Goes(s, Reconcile(name, helm)) ==> After(s, Reconcile(name, helm)).items.Keys == s.items.Keys;
  }

  /** Importing: a new name with a version becomes an entry that is neither
      installed nor builtin. */
  lemma ImportEffect(s: State, q: ImportRequest)
    ensures var op := Import(q);
            var t := After(s, op);
            && (Goes(s, op) <==> q.name != "" && q.version != "" && q.name !in s.items)
            && (!Goes(s, op) ==> t == s)
            && (Goes(s, op) ==>
                  && t.items.Keys == s.items.Keys + {q.name} && (forall n :: n in s.items ==> t.items[n] == s.items[n])
                  && t.cache == s.cache && t.log == s.log && t.systemNamespace == s.systemNamespace
                  && var c := t.items[q.name];
                     && c.name == q.name && c.description == q.description && c.images == q.images
                     && c.displayName == (if q.displayName == "" then q.name else q.displayName)
                     && c.category == (if q.category == "" then "Inference" else q.category)
                     && c.namespace_ == (if q.namespace_ == "" then s.systemNamespace else q.namespace_)
                     && c.versions == [q.version] && c.selectedVersion == q.version && c.aliases == []
                     && c.status == NotInstalled && c.managedBy == Nobody && c.notes == "" && c.lastError == ""
                     && !c.builtin && !c.embedded)
  {
    assert Goes(s, Import(q)) ==> After(s, Import(q)).items.Keys == s.items.Keys + {q.name};
  }

  /** Removing: an imported entry, and no other. */
  lemma RemoveEffect(s: State, name: string)
    ensures var op := Remove(name);
            var t := After(s, op);
            && (Goes(s, op) <==> name in s.items && !s.items[name].builtin)
            && (!Goes(s, op) ==> t == s)
            && (Goes(s, op) ==>
                  && (forall n :: n in t.items <==> n in s.items && n != name)
                  && (forall n :: n in t.items ==> t.items[n] == s.items[n])
                  && t.cache == s.cache && t.log == s.log && t.systemNamespace == s.systemNamespace)
  {
  }

  /** Selecting a version: one of those the entry has; any other changes nothing. */
  lemma PatchVersionEffect(s: State, name: string, version: string)
    ensures var op := PatchVersion(name, version);
            var t := After(s, op);
            && (Goes(s, op) <==> name in s.items)
            && (!Goes(s, op) || version !in s.items[name].versions ==> t == s)
            && (Goes(s, op) && version in s.items[name].versions ==>
                  && OnlyEntry(s, t, name) && t.cache == s.cache && t.log == s.log
                  && t.items[name] == s.items[name].(selectedVersion := version))
  {
    if name in s.items {
      assert s.items[name := s.items[name]] == s.items;
      assert After(s, PatchVersion(name, version)).items.Keys == s.items.Keys;
    }
  }
}
