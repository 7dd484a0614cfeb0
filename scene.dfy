/** The application scene (src/scene/mod.rs): named entities, the name of the
    active camera, lights, an ambient colour and an optional sky-box texture.
    Entities are of any type `E`. */
module Scene {
  import opened Scalar
  import opened Wrappers
  import Storage

  /** `winit::window::Theme`, the element type the scene's light list is declared with. */
  datatype Theme = Light | Dark

  class AppScene<E> {
    var entities: map<string, E>
    var activeCamera: string
    var lights: seq<Theme>
    var ambientLight: (F32, F32, F32)
    var skybox: Option<Storage.Handle>

    /** `AppScene::new`: no entities, the camera named "main_camera", no lights, a dim grey
        ambient light and no sky box. */
    constructor ()
      ensures entities == map[] && activeCamera == "main_camera" && lights == []
      ensures ambientLight == (Finite(0.1), Finite(0.1), Finite(0.1)) && skybox.None?
    {
      entities := map[];
      activeCamera := "main_camera";
      lights := [];
      ambientLight := (Finite(0.1), Finite(0.1), Finite(0.1));
      skybox := None;
    }

    /** The derived `Default`, which differs from `new`: the camera name is empty and the
        ambient light is black. */
    constructor Default()
      ensures entities == map[] && activeCamera == "" && lights == []
      ensures ambientLight == (Finite(0.0), Finite(0.0), Finite(0.0)) && skybox.None?
    {
      entities := map[];
      activeCamera := "";
      lights := [];
      ambientLight := (Finite(0.0), Finite(0.0), Finite(0.0));
      skybox := None;
    }

    /** `AppScene::add_entity`: stores the entity under its name, replacing an entity of
        the same name; every other entity and field is kept. */
    method AddEntity(name: string, entity: E)
      modifies this
      ensures entities == old(entities)[name := entity]
      ensures name in entities && entities[name] == entity
      ensures forall n :: n in old(entities) && n != name ==> n in entities && entities[n] == old(entities)[n]
      ensures entities.Keys == old(entities).Keys + {name}
      ensures activeCamera == old(activeCamera) && lights == old(lights)
      ensures ambientLight == old(ambientLight) && skybox == old(skybox)
    {
      entities := entities[name := entity];
    }

    /** `AppScene::set_active_camera`: sets the name without checking that such an entity
        exists. */
    method SetActiveCamera(name: string)
      modifies this
      ensures activeCamera == name
      ensures entities == old(entities) && lights == old(lights)
      ensures ambientLight == old(ambientLight) && skybox == old(skybox)
    {
      activeCamera := name;
    }

    /** `AppScene::update`: changes nothing. */
    method Update(deltaTime: F32)
      modifies this
      ensures unchanged(this)
    {
    }
  }
}
