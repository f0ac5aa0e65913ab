/** The converters as they run: each writes the fields of the object its out parameter points to,
    one after the other, and allocates what is nested. */
module Converters {
  import opened Wrappers
  import opened ApiCommon
  import V1alpha1
  import V1alpha2
  import opened Conversion

  // What an out parameter points to.
  class Ref<T> {
    var it: T
    constructor (it: T)
      ensures this.it == it
    {
      this.it := it;
    }
  }

  method ConvertOAuthUp(a: V1alpha1.OAuth, out: Ref<V1alpha2.OAuth>)
    modifies out
    ensures out.it == UpOAuth(a, old(out.it))
  {
    out.it := out.it.(source := UpSource(a.source));
    out.it := out.it.(clientIDPath := ToPointer(a.clientIDPath));
    out.it := out.it.(clientSecretPath := ToPointer(a.clientSecretPath));
    out.it := out.it.(tokenURL := a.tokenURL);
    out.it := out.it.(scopes := a.scopes);
    out.it := out.it.(endpointParams := a.endpointParams);
    if a.authStyle != 0 {
      var authStyle := Truncate(a.authStyle);
      out.it := out.it.(authStyle := Some(authStyle));
    }
  }

  method ConvertOAuthDown(b: V1alpha2.OAuth, out: Ref<V1alpha1.OAuth>)
    modifies out
    ensures out.it == DownOAuth(b, old(out.it))
  {
    out.it := out.it.(source := DownSource(b.source));
    out.it := out.it.(clientIDPath := FromPointer(b.clientIDPath, ""));
    out.it := out.it.(clientSecretPath := FromPointer(b.clientSecretPath, ""));
    out.it := out.it.(tokenURL := b.tokenURL);
    out.it := out.it.(scopes := b.scopes);
    out.it := out.it.(endpointParams := b.endpointParams);
    if b.authStyle.Some? {
      out.it := out.it.(authStyle := b.authStyle.value);
    }
  }

  method ConvertStorageUp(a: V1alpha1.Storage, out: Ref<V1alpha2.Storage>)
    modifies out
    ensures out.it == UpStorage(a, old(out.it))
  {
    if a.storageClass.None? && a.size.IsZero() { return; }
    var claim := V1alpha2.Claim(a.storageClass, None, "");
    if !a.size.IsZero() {
      claim := claim.(storage := Some(a.size));
    }
    out.it := out.it.(claim := Some(claim));
  }

  method ConvertStorageDown(b: V1alpha2.Storage, out: Ref<V1alpha1.Storage>)
    modifies out
    ensures out.it == DownStorage(b, old(out.it))
  {
    if b.claim.Some? {
      out.it := out.it.(storageClass := b.claim.value.storageClass);
      if b.claim.value.storage.Some? {
        out.it := out.it.(size := b.claim.value.storage.value);
      }
    }
  }

  method ConvertClientUp(a: V1alpha1.Client, out: Ref<V1alpha2.Client>)
    modifies out
    ensures out.it == UpClient(a)
  {
    hide UpBasicAuth, UpTLS, UpOAuth;
    out.it := out.it.(basicAuth := Lift(a.basicAuth, UpBasicAuth));
    if a.oauth.Some? {
      var oauth := new Ref(V1alpha2.NO_OAUTH);
      ConvertOAuthUp(a.oauth.value, oauth);
      out.it := out.it.(oauth := Some(oauth.it));
    } else {
      out.it := out.it.(oauth := None);
    }
    out.it := out.it.(tls := Lift(a.tls, UpTLS));
    out.it := out.it.(kubernetesAuth := Lift(a.kubernetesAuth, UpKubernetesAuth));
  }

  method ConvertClientDown(b: V1alpha2.Client, out: Ref<V1alpha1.Client>)
    modifies out
    ensures out.it == DownClient(b)
  {
    hide DownBasicAuth, DownTLS, DownOAuth;
    out.it := out.it.(basicAuth := Lift(b.basicAuth, DownBasicAuth));
    if b.oauth.Some? {
      var oauth := new Ref(V1alpha1.NO_OAUTH);
      ConvertOAuthDown(b.oauth.value, oauth);
      out.it := out.it.(oauth := Some(oauth.it));
    } else {
      out.it := out.it.(oauth := None);
    }
    out.it := out.it.(tls := Lift(b.tls, DownTLS));
    out.it := out.it.(kubernetesAuth := Lift(b.kubernetesAuth, DownKubernetesAuth));
  }

  method ConvertSpecUp(a: V1alpha1.PersesSpec, out: Ref<V1alpha2.PersesSpec>)
    modifies out
    ensures out.it == UpSpec(a, old(out.it))
  {
    hide UpClient, UpTLS, UpService, UpStorage;
    var o := out.it;
    o := o.(metadata := a.metadata);
    if a.client.Some? {
      var client := new Ref(V1alpha2.Client(None, None, None, None));
      ConvertClientUp(a.client.value, client);
      o := o.(client := Some(client.it));
    } else {
      o := o.(client := None);
    }
    o := o.(config := a.config, args := a.args, containerPort := ToPointer(a.containerPort), replicas := a.replicas);
    o := o.(nodeSelector := a.nodeSelector, tolerations := a.tolerations, affinity := a.affinity, image := ToPointer(a.image));
    o := o.(service := Lift(a.service, UpService), livenessProbe := a.livenessProbe, readinessProbe := a.readinessProbe);
    o := o.(tls := Lift(a.tls, UpTLS));
    if a.storage.Some? {
      var storage := new Ref(V1alpha2.NO_STORAGE);
      ConvertStorageUp(a.storage.value, storage);
      o := o.(storage := Some(storage.it));
    } else {
      o := o.(storage := None);
    }
    out.it := o.(serviceAccountName := ToPointer(a.serviceAccountName));
  }

  method ConvertSpecDown(b: V1alpha2.PersesSpec, out: Ref<V1alpha1.PersesSpec>)
    modifies out
    ensures out.it == DownSpec(b)
  {
    hide DownClient, DownTLS, DownService, DownStorage;
    var o := out.it;
    o := o.(metadata := b.metadata);
    if b.client.Some? {
      var client := new Ref(V1alpha1.Client(None, None, None, None));
      ConvertClientDown(b.client.value, client);
      o := o.(client := Some(client.it));
    } else {
      o := o.(client := None);
    }
    o := o.(config := b.config, args := b.args, containerPort := FromPointer(b.containerPort, 0), replicas := b.replicas);
    o := o.(nodeSelector := b.nodeSelector, tolerations := b.tolerations, affinity := b.affinity, image := FromPointer(b.image, ""));
    o := o.(service := Lift(b.service, DownService), livenessProbe := b.livenessProbe, readinessProbe := b.readinessProbe);
    o := o.(tls := Lift(b.tls, DownTLS));
    if b.storage.Some? {
      var storage := new Ref(V1alpha1.NO_STORAGE);
      ConvertStorageDown(b.storage.value, storage);
      o := o.(storage := Some(storage.it));
    } else {
      o := o.(storage := None);
    }
    out.it := o.(serviceAccountName := FromPointer(b.serviceAccountName, ""));
  }

  method ConvertPersesUp(a: V1alpha1.Perses, out: Ref<V1alpha2.Perses>)
    modifies out
    ensures out.it == UpPerses(a, old(out.it))
  {
    hide UpSpec;
    out.it := out.it.(meta := a.meta);
    var spec := new Ref(out.it.spec);
    ConvertSpecUp(a.spec, spec);
    out.it := out.it.(spec := spec.it);
    out.it := out.it.(conditions := a.conditions);
  }

  method ConvertPersesDown(b: V1alpha2.Perses, out: Ref<V1alpha1.Perses>)
    modifies out
    ensures out.it == DownPerses(b, old(out.it))
  {
    hide DownSpec;
    out.it := out.it.(meta := b.meta);
    var spec := new Ref(out.it.spec);
    ConvertSpecDown(b.spec, spec);
    out.it := out.it.(spec := spec.it);
    out.it := out.it.(conditions := b.conditions);
  }

  // The assignment reaches only the configuration: the client that was there stays.
  method ConvertDatasourceDown(b: V1alpha2.Datasource, out: Ref<V1alpha1.Datasource>)
    modifies out
    ensures out.it == DownDatasource(b, old(out.it))
  {
    out.it := out.it.(meta := b.meta);
    out.it := out.it.(spec := out.it.spec.(config := b.spec.config));
    out.it := out.it.(conditions := b.conditions);
  }

  // ---- Lists: an array of zero values, filled by index ----

  method ConvertPersesListUp(a: List<V1alpha1.Perses>, out: Ref<List<V1alpha2.Perses>>)
    modifies out
    ensures out.it == ConvertList(a, old(out.it), UpFreshPerses)
  {
    hide UpPerses;
    out.it := out.it.(meta := a.meta);
    if a.items.Some? {
      var s := a.items.value;
      var items := new V1alpha2.Perses[|s|](_ => V1alpha2.NO_PERSES);
      for i := 0 to |s|
        invariant out.it == old(out.it).(meta := a.meta)
        invariant forall j :: 0 <= j < i ==> items[j] == UpFreshPerses(s[j])
        invariant forall j :: i <= j < |s| ==> items[j] == V1alpha2.NO_PERSES
      {
        var item := new Ref(items[i]);
        ConvertPersesUp(s[i], item);
        items[i] := item.it;
      }
      assert items[..] == MapSeq(s, UpFreshPerses);
      out.it := out.it.(items := Some(items[..]));
    } else {
      out.it := out.it.(items := None);
    }
  }

  method ConvertPersesListDown(b: List<V1alpha2.Perses>, out: Ref<List<V1alpha1.Perses>>)
    modifies out
    ensures out.it == ConvertList(b, old(out.it), DownFreshPerses)
  {
    hide DownPerses;
    out.it := out.it.(meta := b.meta);
    if b.items.Some? {
      var s := b.items.value;
      var items := new V1alpha1.Perses[|s|](_ => V1alpha1.NO_PERSES);
      for i := 0 to |s|
        invariant out.it == old(out.it).(meta := b.meta)
        invariant forall j :: 0 <= j < i ==> items[j] == DownFreshPerses(s[j])
        invariant forall j :: i <= j < |s| ==> items[j] == V1alpha1.NO_PERSES
      {
        var item := new Ref(items[i]);
        ConvertPersesDown(s[i], item);
        items[i] := item.it;
      }
      assert items[..] == MapSeq(s, DownFreshPerses);
      out.it := out.it.(items := Some(items[..]));
    } else {
      out.it := out.it.(items := None);
    }
  }
}
