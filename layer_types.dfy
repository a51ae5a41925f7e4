/**
 * CNNLayerType of include/cnn/cnn_layer_base.h: the tag every spatial layer
 * reports through type().
 */
module LayerTypes {

  datatype CNNLayerType =
    | Convolutional
    | MaxPooling
    | AvgPooling
    | Flatten
    | FullyConnected
    | BatchNorm
    | Dropout
}
