/** What the digest of a role mapping and the commitment of a requirement fix. */
module AuthorityCommitments {
  import opened Text
  import opened CanonicalJson
  import opened Commitments
  import opened Authority
  import opened Resolution
  import opened EffectIdentity

  // ---- role mappings -------------------------------------------------------

  /** A dictionary has each name once. */
  ghost predicate NamedOnce(aliases: seq<Alias>) {
    forall i, j | 0 <= i < j < |aliases| :: aliases[i].name != aliases[j].name
  }

  lemma AliasesAreSame(a: seq<Alias>, b: seq<Alias>)
    requires NamedOnce(a) && NamedOnce(b)
    ensures WellFormed(Obj(AliasFields(a)))
    ensures Same(Obj(AliasFields(a)), Obj(AliasFields(b))) <==> |a| == |b| && forall x | x in a :: x in b
  {
    hide StringsJson;
    var v, w := AliasFields(a), AliasFields(b);
    forall i | 0 <= i < |a| ensures v[i] == Field(a[i].name, StringsJson(a[i].roles)) && WellFormed(v[i].value) {
      StringsAreSame(a[i].roles, a[i].roles);
    }
    assert forall j | 0 <= j < |b| :: w[j] == Field(b[j].name, StringsJson(b[j].roles));
    if Same(Obj(v), Obj(w)) {
      forall x | x in a ensures x in b {
        var i :| 0 <= i < |a| && a[i] == x;
        assert v[i].key == x.name;
        var j :| 0 <= j < |w| && w[j].key == v[i].key && Same(v[i].value, w[j].value);
        StringsAreSame(x.roles, b[j].roles);
        assert b[j] == x;
      }
    }
    if |a| == |b| && forall x | x in a :: x in b {
      forall i | 0 <= i < |v| ensures exists j :: 0 <= j < |w| && w[j].key == v[i].key && Same(v[i].value, w[j].value) {
        assert a[i] in a;
        var j :| 0 <= j < |b| && b[j] == a[i];
        StringsAreSame(a[i].roles, b[j].roles);
        assert w[j].key == v[i].key && Same(v[i].value, w[j].value);
      }
    }
  }

  lemma MappingKeysApart()
    ensures |MAPPING_KEYS| == 3 && Apart(MAPPING_KEYS)
  {
    assert |"institution_id"| == 14 && |"version"| == 7 && |"aliases"| == 7;
    assert "version"[0] == 'v' && "aliases"[0] == 'a';
  }

  /** A role mapping's digest fixes it: the same institution, version and aliases, in any order. */
  lemma OneDigestOneMapping(hash: Hash, m: RoleMapping, n: RoleMapping)
    requires Injective(hash) && NamedOnce(m.aliases) && NamedOnce(n.aliases)
    ensures MappingDigest(hash, m) == MappingDigest(hash, n) <==>
      && m.institutionId == n.institutionId && m.version == n.version
      && |m.aliases| == |n.aliases| && forall x | x in m.aliases :: x in n.aliases
  {
    hide Commitment, Record, MAPPING_KEYS, AliasFields, NamedOnce;
    var vs := [Str(m.institutionId), Str(m.version), Obj(AliasFields(m.aliases))];
    var ws := [Str(n.institutionId), Str(n.version), Obj(AliasFields(n.aliases))];
    AliasesAreSame(m.aliases, n.aliases);
    AliasesAreSame(n.aliases, m.aliases);
    MappingKeysApart();
    AllThree(vs, ws);
    RecordCommits(hash, MAPPING_KEYS, vs, ws);
  }

  lemma AllThree(vs: seq<Json>, ws: seq<Json>)
    requires |vs| == |ws| == 3
    ensures AllSame(vs, ws) <==> Same(vs[0], ws[0]) && Same(vs[1], ws[1]) && Same(vs[2], ws[2])
    ensures AllWellFormed(vs) <==> WellFormed(vs[0]) && WellFormed(vs[1]) && WellFormed(vs[2])
    ensures AllWellFormed(ws) <==> WellFormed(ws[0]) && WellFormed(ws[1]) && WellFormed(ws[2])
  {
    hide Same, WellFormed;
  }

  // ---- requirements --------------------------------------------------------

  lemma ArrayIsSame(a: seq<Json>, b: seq<Json>)
    ensures Same(Arr(a), Arr(b)) <==> AllSame(a, b)
    ensures WellFormed(Arr(a)) <==> AllWellFormed(a)
  {}

  lemma PermissionIsSame(p: Permission, q: Permission)
    ensures WellFormed(PermissionJson(p)) && (Same(PermissionJson(p), PermissionJson(q)) <==> p == q)
  {
    hide StringsJson;
    var v, w := PermissionJson(p).items, PermissionJson(q).items;
    StringsAreSame(p.targets, q.targets);
    StringsAreSame(p.dataScopes, q.dataScopes);
    if Same(PermissionJson(p), PermissionJson(q)) {
      assert Same(v[0], w[0]) && Same(v[1], w[1]) && Same(v[2], w[2]);
      assert Same(v[3], w[3]) && Same(v[4], w[4]) && Same(v[5], w[5]);
    }
  }

  lemma RoleIsSame(r: ApprovalRequirement, q: ApprovalRequirement)
    ensures WellFormed(RequiredRoleJson(r)) && (Same(RequiredRoleJson(r), RequiredRoleJson(q)) <==> r == q)
  {
    var v, w := RequiredRoleJson(r).items, RequiredRoleJson(q).items;
    if Same(RequiredRoleJson(r), RequiredRoleJson(q)) {
      assert Same(v[0], w[0]) && Same(v[1], w[1]);
    }
  }

  lemma ObligationIsSame(o: Obligation, q: Obligation)
    ensures WellFormed(ObligationJson(o)) && (Same(ObligationJson(o), ObligationJson(q)) <==> o == q)
  {
    var v, w := ObligationJson(o).items, ObligationJson(q).items;
    if Same(ObligationJson(o), ObligationJson(q)) {
      assert Same(v[0], w[0]) && Same(v[1], w[1]) && Same(v[2], w[2]);
      assert Same(v[3], w[3]) && Same(v[4], w[4]) && Same(v[5], w[5]);
    }
  }

  lemma PermissionsAreSame(ps: seq<Permission>, qs: seq<Permission>)
    ensures WellFormed(PermissionsJson(ps)) && (Same(PermissionsJson(ps), PermissionsJson(qs)) <==> ps == qs)
  {
    hide PermissionJson;
    var a, b := PermissionsJson(ps).items, PermissionsJson(qs).items;
    forall i | 0 <= i < |ps| ensures WellFormed(a[i]) { PermissionIsSame(ps[i], ps[i]); }
    forall i | 0 <= i < |ps| && i < |qs| ensures Same(a[i], b[i]) <==> ps[i] == qs[i] {
      PermissionIsSame(ps[i], qs[i]);
    }
    ArrayIsSame(a, b);
  }

  lemma RolesAreSame(rs: seq<ApprovalRequirement>, qs: seq<ApprovalRequirement>)
    ensures WellFormed(RequiredRolesJson(rs)) && (Same(RequiredRolesJson(rs), RequiredRolesJson(qs)) <==> rs == qs)
  {
    hide RequiredRoleJson;
    var a, b := RequiredRolesJson(rs).items, RequiredRolesJson(qs).items;
    forall i | 0 <= i < |rs| ensures WellFormed(a[i]) { RoleIsSame(rs[i], rs[i]); }
    forall i | 0 <= i < |rs| && i < |qs| ensures Same(a[i], b[i]) <==> rs[i] == qs[i] { RoleIsSame(rs[i], qs[i]); }
    ArrayIsSame(a, b);
  }

  lemma ObligationsAreSame(os: seq<Obligation>, qs: seq<Obligation>)
    ensures WellFormed(ObligationsJson(os)) && (Same(ObligationsJson(os), ObligationsJson(qs)) <==> os == qs)
  {
    hide ObligationJson;
    var a, b := ObligationsJson(os).items, ObligationsJson(qs).items;
    forall i | 0 <= i < |os| ensures WellFormed(a[i]) { ObligationIsSame(os[i], os[i]); }
    forall i | 0 <= i < |os| && i < |qs| ensures Same(a[i], b[i]) <==> os[i] == qs[i] {
      ObligationIsSame(os[i], qs[i]);
    }
    ArrayIsSame(a, b);
  }

  lemma RequirementKeysApart()
    ensures |REQUIREMENT_KEYS| == 6 && Apart(REQUIREMENT_KEYS)
  {
    assert "requirement_id"[0] == 'r' && "permissions"[0] == 'p' && "approvals"[0] == 'a';
    assert "evidence"[0] == 'e' && "consequence"[0] == 'c' && "document"[0] == 'd';
  }

  /** A requirement's commitment fixes it: every field, and the rest of its document up to the order
      of dictionary entries. */
  lemma OneCommitmentOneRequirement(hash: Hash, r: Requirement, q: Requirement)
    requires Injective(hash) && WellFormed(r.document) && WellFormed(q.document)
    ensures RequirementCommitment(hash, r) == RequirementCommitment(hash, q) <==>
      && r.requirementId == q.requirementId && r.permissions == q.permissions && r.approvals == q.approvals
      && r.evidence == q.evidence && r.tier == q.tier && Same(r.document, q.document)
  {
    hide Commitment, Record, REQUIREMENT_KEYS, PermissionsJson, RequiredRolesJson, ObligationsJson;
    var vs, ws := RequirementValues(r), RequirementValues(q);
    PermissionsAreSame(r.permissions, q.permissions);
    RolesAreSame(r.approvals, q.approvals);
    ObligationsAreSame(r.evidence, q.evidence);
    PermissionsAreSame(q.permissions, r.permissions);
    RolesAreSame(q.approvals, r.approvals);
    ObligationsAreSame(q.evidence, r.evidence);
    RequirementKeysApart();
    AllSix(vs, ws);
    RecordCommits(hash, REQUIREMENT_KEYS, vs, ws);
  }

  lemma AllSix(vs: seq<Json>, ws: seq<Json>)
    requires |vs| == |ws| == 6
    ensures AllSame(vs, ws) <==>
      && Same(vs[0], ws[0]) && Same(vs[1], ws[1]) && Same(vs[2], ws[2])
      && Same(vs[3], ws[3]) && Same(vs[4], ws[4]) && Same(vs[5], ws[5])
    ensures AllWellFormed(vs) <==>
      && WellFormed(vs[0]) && WellFormed(vs[1]) && WellFormed(vs[2])
      && WellFormed(vs[3]) && WellFormed(vs[4]) && WellFormed(vs[5])
    ensures AllWellFormed(ws) <==>
      && WellFormed(ws[0]) && WellFormed(ws[1]) && WellFormed(ws[2])
      && WellFormed(ws[3]) && WellFormed(ws[4]) && WellFormed(ws[5])
  {
    hide Same, WellFormed;
  }
}
